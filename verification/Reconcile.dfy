/** One reconcile pass over a Runner or MultiRunner. */
module Reconcile {
  import opened Common
  import opened Names
  import opened Executor
  import opened Rbac
  import opened RbacStore
  import opened AllowList
  import opened ManagedRunner
  import opened RunnerObject
  import opened EnsureRunners
  import opened TokenRefresh
  import opened ConfigSecret
  import opened ManagerDeployment
  import opened GenerateConfig
  import opened Convergence
  import Finalize
  import opened UnitAccounting
  import Shutdown

  type Stores = Finalize.Stores

  /** The world's part in a pass: the allow-list, what the CA source resolves to (None is an
      error, "" no bundle), each unit's input, the clock, and the rendering and storing of what
      is sent. `now` and `removals` are for a pass over an object marked for deletion. */
  datatype World = World(allowed: seq<string>, ca: Option<string>, customCA: bool, inputs: Inputs, clock: int,
                         codec: Codec, admit: Admission, systemId: string, shape: PodShape,
                         now: nat, removals: Finalize.Removals)

  /** How far a pass came: whether it was refused, how many units took their turn, whether all were
      served, with which tokens and which least expiry, and whether RBAC was completed and a create
      of a binding raced. The rest says which calls went without faults: those about RBAC, the
      reading of the Secret, the writing of Secret and Deployment, the last write of the status. */
  datatype Summary = Summary(refused: bool, turns: nat, served: bool, tokens: Data, soonest: Option<int>, bound: bool, raced: bool,
                             clean: bool, read: bool, applied: bool, reported: bool)

  /** When to come back: after the default timeout, at once, never, or after some seconds. */
  datatype Requeue = AfterTimeout | Now | Never | After(seconds: int)

  /** What a pass over an object that is not being deleted can see change: RBAC, GitLab, the
      status as stored and in memory, the Secret and the Deployment. */
  datatype View = View(rbac: State, live: Runners, stored: Status, status: Status, secret: Option<Data>, deployment: Option<Deployment>)

  ghost function ViewOf(s: Stores, obj: RunnerObject, stored: StoredObject): View
    reads s.rbac`st, s.gitlab`live, stored`status, obj`status, s.secret`data, s.deployments`stored
  {
    View(s.rbac.st, s.gitlab.live, stored.status, obj.status, s.secret.data, s.deployments.stored)
  }

  /** What the stores hold about all units of the object. */
  function StateOf(v: View): ObjectState {
    ObjectState(v.live, v.stored.registrations, v.secret)
  }

  /** What `Convergence` iterates. */
  function SnapshotOf(v: View, finalizer: bool): Snapshot {
    Snapshot(finalizer, v.stored.ready, v.stored.registrations, v.secret, v.deployment)
  }

  /** The answer of a pass: a refused object waits for a change of its spec, a ready one for the next
      look at its tokens; after a write the object is looked at again, after a failure later. */
  function Answer(t: Summary, ready: bool, clock: int): Requeue {
    if t.refused then Never
    else if ready then (if t.soonest.None? then Never else After(ResyncAfter(t.soonest, clock)))
    else if t.bound && t.applied then Now
    else AfterTimeout
  }

  /** The stored Deployment carries the version and system id wherever annotations are kept, and
      runs the wanted image and settings where the cluster keeps the runner container. */
  ghost predicate Deployed(stored: Option<Deployment>, version: string, systemId: string, shape: PodShape, admit: Admission) {
    && stored.Some?
    && ((forall d: Deployment :: AnnotationsKept(d, admit(d))) ==>
          stored.value.configVersion == version && stored.value.template.systemId == systemId)
    && (KeepsRunner(admit) && shape.image != "" ==> Runs(stored.value.template, shape))
  }

  /** Every namespace the config names holds the base binding, and the disruption-budget
      binding where the config enables it. */
  ghost predicate ConfigIsBound(st: State, kind: Kind, name: string, config: seq<RunnerConfig>) {
    forall r | r in config ::
      && Key(r.kubernetes.namespace, BindingName(kind, name, Base)) in st.bindings
      && (WantsPdb(r.kubernetes) ==> Key(r.kubernetes.namespace, BindingName(kind, name, Pdb)) in st.bindings)
  }

  /** What it means to be ready: the Secret holds exactly the rendered config, the tokens of
      all entries and the CA, the Deployment carries the version in status and runs what is wanted,
      and every namespace the config names is bound. */
  ghost predicate ReadyMeans(v: View, o: Rbac.Owner, entries: seq<Entry>, w: World, tokens: Data) {
    var config := ConfigOf(entries, o.namespace, tokens, w.customCA);
    var text, ca := (w.codec.encode)(config), w.ca.GetOr("");
    && (forall name :: name in tokens <==> exists i :: 0 <= i < |entries| && entries[i].name == name)
    && v.secret.Some? && IsRendered(v.secret.value, text, tokens, ca)
    && v.status.configVersion == Version(w.codec, text, ca)
    && Deployed(v.deployment, v.status.configVersion, w.systemId, w.shape, w.admit)
    && ConfigIsBound(v.rbac, o.kind, o.name, config)
  }

  /** What the deferred write comes to, `puts` being the replies to its updates: it is tried again
      after a conflict, up to five times, and after nothing else. `read` tells that every read
      before was answered. */
  ghost predicate Written(before: Status, after: Status, status: Status, puts: seq<Reply>, read: bool) {
    && |puts| <= 5 && (forall i | 0 <= i < |puts| - 1 :: puts[i].Conflict?)
    && after == (if puts != [] && puts[|puts| - 1].Applied() then status else before)
    && (read && puts == [] ==> before == status)
    && (read && puts != [] && puts[|puts| - 1].Conflict? ==> |puts| == 5)
  }

  /** The status write deferred to the end of the pass, retried on conflict. */
  method WriteStatus(obj: RunnerObject, stored: StoredObject, crs: Api) returns (ghost puts: seq<Reply>, ghost read: bool)
    modifies stored`status, crs
    ensures crs.faults >= old(crs.faults)
    ensures stored.status == old(stored.status) || stored.status == obj.status
    ensures crs.faults == old(crs.faults) ==> stored.status == obj.status
    ensures Written(old(stored.status), stored.status, obj.status, puts, read)
    ensures crs.faults == old(crs.faults) ==> read
  {
    puts, read := [], true;
    for attempt := 0 to 5
      invariant crs.faults >= old(crs.faults) + attempt
      invariant stored.status == old(stored.status)
      invariant puts != [] ==> obj.status != stored.status
      invariant read && |puts| == attempt && forall i | 0 <= i < |puts| :: puts[i].Conflict?
    {
      var got := crs.Call();
      if !got.Done? {
        read := false;
        return;
      }
      if obj.status == stored.status {
        return;
      }
      var put := crs.Call();
      puts := puts + [put];
      if put.Applied() {
        stored.status := obj.status;
      }
      if !put.Conflict? {
        return;
      }
    }
  }

  // ----- the units and RBAC -----

  /** GitLab and the status, in memory and stored, after the first `turns` units. */
  ghost predicate UnitsServed(a: View, b: View, entries: seq<Entry>, inputs: Inputs, turns: nat) {
    turns <= |entries| &&
    var known, taken := TokensIn(a.secret), entries[..turns];
    && b.live == LiveAfter(taken, a.live, a.status.registrations, known, inputs)
    && b.status.registrations == RecordAll(taken, a.status.registrations, known, inputs)
    && b.stored == StoredAll(taken, a.stored, a.status, known, inputs)
  }

  /** The namespaces are allowed and well named and the CA source resolves. */
  ghost predicate Unstopped(o: Rbac.Owner, w: World) {
    !Refused(o, w.allowed) && w.ca.Some? && ValidNames(o)
  }

  /** Nothing in the spec or the world stops the pass, and every unit's turn succeeds. */
  ghost predicate Provisionable(o: Rbac.Owner, entries: seq<Entry>, rs: Registrations, secret: Option<Data>, w: World) {
    Unstopped(o, w) && TurnsSucceed(entries, rs, TokensIn(secret), w.inputs)
  }

  /** What a completed RBAC reconciliation leaves; `clean` when no call failed. */
  ghost predicate RbacDone(before: State, after: State, o: Rbac.Owner, clean: bool, raced: bool) {
    && Granted(after, o) && OnlyWanted(after, o) && AccountOf(o) in after.accounts
    && (!raced ==> (Exact(after, o) <==> KeptAreOwn(before, o)))
    && (clean ==> RolesConverged(after))
    && (RbacSettled(before, o) ==> after == before)
  }

  /** What the first half of a pass promises, from the state of RBAC before and after it, the
      registrations and the Secret it started from. */
  ghost predicate Outcome(t: Summary, o: Rbac.Owner, entries: seq<Entry>, w: World, before: State, after: State,
                          rs0: Registrations, secret0: Option<Data>)
  {
    && t.turns <= |entries|
    && (t.served ==> t.turns == |entries| && TokensOf(entries, rs0, TokensIn(secret0), w.inputs, t.tokens)
                     && SoonestOf(entries, rs0, TokensIn(secret0), w.inputs, t.soonest))
    && (t.bound ==> t.served && RbacDone(before, after, o, t.clean, t.raced))
    // a refused object gets nothing, and keeps what it may; it is refused unless its revocation fails
    && (Refused(o, w.allowed) ==> t.turns == 0 && !t.served && (t.clean ==> t.refused))
    && (t.refused ==> Refused(o, w.allowed) && Revoked(before, after, o, w.allowed))
    // no unit takes its turn without the CA bundle, and RBAC waits for all of them
    && (w.ca.None? ==> t.turns == 0 && !t.served)
    && (!t.served && !Refused(o, w.allowed) ==> after == before)
    // no binding is left outside the allow-list
    && (t.bound || t.refused ==> Confined(after, o, w.allowed))
    && (!Refused(o, w.allowed) && RbacSettled(before, o) ==> after == before)
    // bindings of others are kept, and new ones are owner-referenced in the own namespace only
    && ForeignKept(before, after, o) && (!t.raced ==> AddsFit(before, after, o))
    // only a fault or what the world holds keeps the pass from completing RBAC
    && (t.clean && t.read && Provisionable(o, entries, rs0, secret0, w) ==> t.bound)
  }

  /** All units took their turn and succeeded: `tokens` holds what each was issued, `rs1` what
      each ended with. */
  ghost predicate Served(entries: seq<Entry>, rs0: Registrations, secret0: Option<Data>, inputs: Inputs, tokens: Data, rs1: Registrations) {
    && TokensOf(entries, rs0, TokensIn(secret0), inputs, tokens)
    && rs1 == RecordAll(entries, rs0, TokensIn(secret0), inputs)
  }

  /** The unit's token: what its source holds, or the token of the runner in status, registered
      with the wanted options and either just created or recovered, accepted and good for a day. */
  ghost predicate TokenIsCurrent(e: Entry, rs0: Registrations, secret0: Option<Data>, inputs: Inputs, tokens: Data, rs1: Registrations) {
    e.name in tokens && tokens[e.name] != "" &&
    var reg, a := Lookup(rs1, e.name), inputs(e.name).answers;
    if e.createOptions.None? then inputs(e.name).provided == Some(tokens[e.name])
    else
      && reg.runnerId != 0 && reg.hash == e.createOptions.value
      && ((a.create.Done? && reg.runnerId == a.created.id && tokens[e.name] == a.created.token)
          || (reg == Lookup(rs0, e.name) && tokens[e.name] == TokenFor(TokensIn(secret0), e.name) && a.verify.Accepted?
              && !NearExpiry(reg.expiresAt, inputs(e.name).now)))
  }

  lemma ServedTokenIsCurrent(entries: seq<Entry>, k: nat, rs0: Registrations, secret0: Option<Data>, inputs: Inputs,
                             tokens: Data,
                             rs1: Registrations)
    requires Served(entries, rs0, secret0, inputs, tokens, rs1) && k < |entries|
    requires UniqueNames(entries) && (rs0.One? ==> |entries| <= 1)
    requires inputs(entries[k].name).answers.created.id != 0 && inputs(entries[k].name).answers.created.token != ""
    ensures TokenIsCurrent(entries[k], rs0, secret0, inputs, tokens, rs1)
  {
    var e, recovered := entries[k], TokensIn(secret0);
    assert tokens[e.name] == TurnOf(e, rs0, recovered, inputs).value.token;
    if e.createOptions.Some? {
      TurnsAreIndependent(entries, rs0, recovered, inputs, k);
      IssuedStep(Lookup(rs0, e.name), TokenFor(recovered, e.name), e.createOptions.value, inputs(e.name).now, inputs(e.name).answers);
    }
  }

  /** Reading the tokens from the Secret is what `TokensIn` says, or no unit takes its turn. */
  lemma KnownTokens(entries: seq<Entry>, turns: nat, live: Runners, stored0: Status, status0: Status, known: Data, data: Option<Data>,
                    inputs: Inputs)
    requires turns <= |entries| && (turns > 0 ==> AreTokensOf(known, data.GetOr(map[])))
    ensures LiveAfter(entries[..turns], live, status0.registrations, known, inputs)
            == LiveAfter(entries[..turns], live, status0.registrations, TokensIn(data), inputs)
    ensures RecordAll(entries[..turns], status0.registrations, known, inputs)
            == RecordAll(entries[..turns], status0.registrations, TokensIn(data), inputs)
    ensures StoredAll(entries[..turns], stored0, status0, known, inputs)
            == StoredAll(entries[..turns], stored0, status0, TokensIn(data), inputs)
  {
    if turns > 0 {
      TokensInAre(data, known);
    }
  }

  /** GitLab and the status after the units' turns; with `r`, all succeeded. */
  ghost predicate TurnsDone(a: View, b: View, entries: seq<Entry>, w: World, r: Option<(Data, int)>, turns: nat, soonest: Option<int>,
                            read: bool)
  {
    && UnitsServed(a, b, entries, w.inputs, turns)
    && b == a.(live := b.live, stored := b.stored, status := b.status)
    && b.status == a.status.(registrations := b.status.registrations, error := b.status.error)
    && (if r.None? then b.status.error != "" else
        && turns == |entries| && b.status.error == a.status.error
        && TokensOf(entries, a.status.registrations, TokensIn(a.secret), w.inputs, r.value.0)
        && SoonestOf(entries, a.status.registrations, TokensIn(a.secret), w.inputs, soonest)
        && r.value.1 == ResyncAfter(soonest, w.clock))
    && ((read && TurnsSucceed(entries, a.status.registrations, TokensIn(a.secret), w.inputs)) ==> r.Some?)
  }

  /** The units' turns. */
  method Serve(s: Stores, obj: RunnerObject, stored: StoredObject, w: World)
    returns (r: Option<(Data, int)>, ghost turns: nat, ghost soonest: Option<int>)
    requires obj.WellFormed()
    modifies s.gitlab, s.secret.api, obj`status, stored`status
    ensures obj.WellFormed() && s.secret.api.faults >= old(s.secret.api.faults)
    ensures TurnsDone(old(ViewOf(s, obj, stored)), ViewOf(s, obj, stored), obj.entries, w, r, turns, soonest,
                      s.secret.api.faults == old(s.secret.api.faults))
  {
    ghost var known: Data;
    ghost var status0, stored0, live0 := obj.status, stored.status, s.gitlab.live;
    r, turns, known, soonest := EnsureRunners.EnsureRunners(s.gitlab, stored, obj, s.secret, w.inputs, w.clock);
    RecordKeepsForm(obj.entries[..turns], status0.registrations, known, w.inputs);
    KnownTokens(obj.entries, turns, live0, stored0, status0, known, s.secret.data, w.inputs);
    TurnFailed(obj.entries, turns, r.Some?, status0.registrations, known, w.inputs);
    TokensInAre(s.secret.data, known);
    if r.None? {
      obj.status := obj.status.(error := "cannot ensure runners against gitlab");
    }
  }

  /** GitLab, the status and RBAC after the units' turns and, if all succeeded, RBAC. */
  ghost predicate Bound(a: View, b: View, o: Rbac.Owner, entries: seq<Entry>, w: World, t: Summary) {
    && UnitsServed(a, b, entries, w.inputs, t.turns)
    && b.secret == a.secret && b.deployment == a.deployment
    && b.status == a.status.(registrations := b.status.registrations, error := b.status.error)
    && (t.served ==> t.turns == |entries|
                     && TokensOf(entries, a.status.registrations, TokensIn(a.secret), w.inputs, t.tokens)
                     && SoonestOf(entries, a.status.registrations, TokensIn(a.secret), w.inputs, t.soonest))
    && (!t.served ==> b.rbac == a.rbac)
    && (if t.bound then t.served && b.status.error == a.status.error && RbacDone(a.rbac, b.rbac, o, t.clean, t.raced)
        else b.status.error != "")
    && (RbacSettled(a.rbac, o) ==> b.rbac == a.rbac)
    && ForeignKept(a.rbac, b.rbac, o) && (!t.raced ==> AddsFit(a.rbac, b.rbac, o))
    && ((t.clean && t.read && ValidNames(o) && TurnsSucceed(entries, a.status.registrations, TokensIn(a.secret), w.inputs))
        ==> t.bound)
  }

  /** What reconciling RBAC comes to. */
  ghost predicate Reconciled(before: State, after: State, o: Rbac.Owner, ok: bool, clean: bool, raced: bool) {
    && (ok ==> RbacDone(before, after, o, clean, raced))
    && (clean && ValidNames(o) ==> ok)
    && (RbacSettled(before, o) ==> after == before)
    && ForeignKept(before, after, o) && (!raced ==> AddsFit(before, after, o))
  }

  method ReconcileRbac(rbac: Store, obj: RunnerObject) returns (ok: bool, ghost clean: bool, ghost raced: bool)
    requires rbac.Valid() && obj.WellFormed()
    modifies rbac, rbac.api, obj`status
    ensures rbac.Valid() && obj.WellFormed() && rbac.api.faults >= old(rbac.api.faults)
    ensures obj.status == old(obj.status).(error := obj.status.error)
    ensures if ok then obj.status == old(obj.status) else obj.status.error != ""
    ensures Reconciled(old(rbac.st), rbac.st, obj.Owner(), ok, clean, raced)
    ensures rbac.api.faults == old(rbac.api.faults) ==> clean
  {
    ok := rbac.CreateRBACIfMissing(obj.Owner());
    clean, raced := rbac.api.faults == old(rbac.api.faults), rbac.races != old(rbac.races);
    if !ok {
      obj.status := obj.status.(error := "Cannot create the rbac objects");
    }
  }

  /** A pass that stopped with the units. */
  lemma UnservedIsBound(a: View, b: View, o: Rbac.Owner, entries: seq<Entry>, w: World, t: Summary)
    requires TurnsDone(a, b, entries, w, None, t.turns, t.soonest, t.read) && !t.served && !t.bound
    ensures Bound(a, b, o, entries, w, t)
  {
    hide RbacSettled, TurnsSucceed, ValidNames, UnitsServed;
  }

  lemma DoneIsBound(a: View, mid: View, b: View, o: Rbac.Owner, entries: seq<Entry>, w: World, t: Summary, r: (Data, int))
    requires TurnsDone(a, mid, entries, w, Some(r), t.turns, t.soonest, t.read)
    requires b == mid.(rbac := b.rbac, status := mid.status.(error := b.status.error))
    requires t.served && t.tokens == r.0 && Reconciled(a.rbac, b.rbac, o, t.bound, t.clean, t.raced)
    requires if t.bound then b.status.error == mid.status.error else b.status.error != ""
    ensures Bound(a, b, o, entries, w, t)
  {
    hide RbacDone, RbacSettled, TokensOf, SoonestOf, TurnsSucceed, ValidNames, ForeignKept, AddsFit;
  }

  /** The units' turns, then RBAC. */
  method ServeAndBind(s: Stores, obj: RunnerObject, stored: StoredObject, w: World) returns (r: Option<(Data, int)>, ghost t: Summary)
    requires obj.WellFormed() && s.rbac.Valid()
    modifies s.rbac, s.rbac.api, s.gitlab, s.secret.api, obj`status, stored`status
    ensures s.rbac.Valid() && obj.WellFormed()
    ensures s.rbac.api.faults >= old(s.rbac.api.faults) && s.secret.api.faults >= old(s.secret.api.faults)
    ensures Bound(old(ViewOf(s, obj, stored)), ViewOf(s, obj, stored), obj.Owner(), obj.entries, w, t)
    ensures s.rbac.api.faults == old(s.rbac.api.faults) ==> t.clean
    ensures s.secret.api.faults == old(s.secret.api.faults) ==> t.read
    ensures !t.refused && !t.applied && (t.bound <==> r.Some?) && (r.Some? ==> r.value == (t.tokens, ResyncAfter(t.soonest, w.clock)))
  {
    hide Bound, Reconciled, Store.Valid, RunnerObject.Owner, UniqueNames, UnitsServed, TokensOf, SoonestOf, TurnsSucceed;
    ghost var a, owner, faults, turns, soonest := ViewOf(s, obj, stored), obj.Owner(), s.secret.api.faults, 0, None;
    r, turns, soonest := Serve(s, obj, stored, w);
    ghost var mid, served := ViewOf(s, obj, stored), r;
    t := Summary(false, turns, r.Some?, if r.Some? then r.value.0 else map[], soonest, false, false,
                 true, s.secret.api.faults == faults, false, false);
    if r.None? {
      UnservedIsBound(a, mid, owner, obj.entries, w, t);
      return;
    }
    var ok;
    ghost var clean, raced;
    ok, clean, raced := ReconcileRbac(s.rbac, obj);
    t := t.(bound := ok, clean := clean, raced := raced);
    DoneIsBound(a, mid, ViewOf(s, obj, stored), owner, obj.entries, w, t, served.value);
    if !ok {
      r := None;
    }
  }

  /** What `Authorize` promises. */
  ghost predicate Authorized(a: View, b: View, o: Rbac.Owner, entries: seq<Entry>, w: World, t: Summary) {
    && Outcome(t, o, entries, w, a.rbac, b.rbac, a.status.registrations, a.secret)
    && UnitsServed(a, b, entries, w.inputs, t.turns)
    && b.secret == a.secret && b.deployment == a.deployment
    && b.status == a.status.(registrations := b.status.registrations, error := b.status.error)
    && if t.bound then b.status.error == a.status.error else b.status.error != ""
  }

  /** A pass that ends with the allow-list: the object is refused, or the revocation failed. */
  lemma RefusedIsAuthorized(a: View, b: View, o: Rbac.Owner, entries: seq<Entry>, w: World, t: Summary)
    requires Refused(o, w.allowed) && b == a.(rbac := b.rbac, status := a.status.(error := b.status.error)) && b.status.error != ""
    requires t.turns == 0 && !t.served && !t.bound && (t.clean ==> t.refused)
    requires t.refused ==> Revoked(a.rbac, b.rbac, o, w.allowed)
    requires Shrunk(b.rbac, a.rbac) && forall k | k in a.rbac.bindings && k !in b.rbac.bindings :: OwnedBy(a.rbac.bindings[k], o)
    ensures Authorized(a, b, o, entries, w, t)
  {
    assert entries[..0] == [];
    ShrunkAddsFit(a.rbac, b.rbac, o);
    if t.refused {
      RefusedPassIsConfined(a.rbac, b.rbac, o, w.allowed);
    }
  }

  /** A pass that ends with the CA bundle. */
  lemma NoBundleIsAuthorized(a: View, b: View, o: Rbac.Owner, entries: seq<Entry>, w: World, t: Summary)
    requires !Refused(o, w.allowed) && w.ca.None? && b == a.(status := a.status.(error := b.status.error)) && b.status.error != ""
    requires t.turns == 0 && !t.served && !t.bound && !t.refused
    ensures Authorized(a, b, o, entries, w, t)
  {
    assert entries[..0] == [];
    SameAddsFit(a.rbac, b.rbac, o);
  }

  /** A pass that comes to the units. */
  lemma BoundIsAuthorized(a: View, b: View, o: Rbac.Owner, entries: seq<Entry>, w: World, t: Summary)
    requires !Refused(o, w.allowed) && w.ca.Some? && Bound(a, b, o, entries, w, t)
    requires !t.refused
    ensures Authorized(a, b, o, entries, w, t)
  {
    if t.bound {
      FinishedPassIsConfined(b.rbac, o, w.allowed);
    }
  }

  /** The first part of a pass: allow-list, CA bundle, runner units, RBAC, in that order, each
      stopping the pass if it fails. */
  method Authorize(s: Stores, obj: RunnerObject, stored: StoredObject, w: World)
    returns (r: Option<(Data, int)>, refused: bool, ghost t: Summary)
    requires obj.WellFormed() && s.rbac.Valid()
    modifies s.rbac, s.rbac.api, s.gitlab, s.secret.api, obj`status, stored`status
    ensures s.rbac.Valid() && obj.WellFormed()
    ensures s.rbac.api.faults >= old(s.rbac.api.faults) && s.secret.api.faults >= old(s.secret.api.faults)
    ensures Authorized(old(ViewOf(s, obj, stored)), ViewOf(s, obj, stored), obj.Owner(), obj.entries, w, t)
    ensures s.rbac.api.faults == old(s.rbac.api.faults) ==> t.clean
    ensures s.secret.api.faults == old(s.secret.api.faults) ==> t.read
    ensures refused == t.refused && !t.applied && (t.bound <==> r.Some?) && (refused ==> r.None?)
    ensures r.Some? ==> w.ca.Some? && r.value == (t.tokens, ResyncAfter(t.soonest, w.clock))
  {
    hide Outcome, Bound, Authorized, UnitsServed, RbacDone, RbacSettled, Confined, Served, Revoked;
    ghost var a, owner, entries := ViewOf(s, obj, stored), obj.Owner(), obj.entries;
    ghost var faults, faults' := s.rbac.api.faults, s.secret.api.faults;
    r, refused := None, false;
    var ok, failed := EnforceAllowedBuildNamespaces(s.rbac, obj.Owner(), w.allowed);
    if !ok {
      refused := !failed;
      t := Summary(refused, 0, false, map[], None, false, false, s.rbac.api.faults == faults, true, false, false);
      obj.status := obj.status.(error := "namespace not permitted");
      RefusedIsAuthorized(a, ViewOf(s, obj, stored), owner, entries, w, t);
    } else if w.ca.None? {
      t := Summary(false, 0, false, map[], None, false, false, true, true, false, false);
      obj.status := obj.status.(error := "cannot resolve the CA bundle");
      NoBundleIsAuthorized(a, ViewOf(s, obj, stored), owner, entries, w, t);
    } else {
      assert ViewOf(s, obj, stored) == a && obj.Owner() == owner;
      r, t := ServeAndBind(s, obj, stored, w);
      BoundIsAuthorized(a, ViewOf(s, obj, stored), owner, entries, w, t);
    }
  }

  lemma TurnFailed(entries: seq<Entry>, turns: nat, ok: bool, rs: Registrations, recovered: Data, inputs: Inputs)
    requires turns <= |entries|
    requires !ok && turns > 0 ==> TurnOf(entries[turns - 1], rs, recovered, inputs).None?
    ensures TurnsSucceed(entries, rs, recovered, inputs) && turns > 0 ==> ok
  {
  }

  // ----- rendering and applying -----

  /** What a pass leaves of the Secret and the Deployment when no call about them fails: the
      Secret first, the Deployment once it is settled. */
  ghost predicate AppliedTo(before: Snapshot, after: Snapshot, entries: seq<Entry>, namespace: string, w: World, tokens: Data) {
    var text, ca := (w.codec.encode)(ConfigOf(entries, namespace, tokens, w.customCA)), w.ca.GetOr("");
    var d := Sync(before.deployment, WantedDeployment(Version(w.codec, text, ca), w.systemId, w.shape), w.admit);
    && after.secret.Some? && IsRendered(after.secret.value, text, tokens, ca)
    && if after.secret == before.secret then after.deployment == Some(d.0) && after.ready == d.1.Settled?
       else after.deployment == before.deployment && !after.ready
  }

  /** The version of the config rendered with these tokens. */
  function VersionOf(entries: seq<Entry>, namespace: string, w: World, tokens: Data): string {
    Version(w.codec, (w.codec.encode)(ConfigOf(entries, namespace, tokens, w.customCA)), w.ca.GetOr(""))
  }

  /** What `Apply` promises, the ready flag being judged in memory. */
  ghost predicate Applied(a: View, b: View, o: Rbac.Owner, entries: seq<Entry>, w: World, tokens: Data, calm: bool) {
    && b == a.(status := b.status, secret := b.secret, deployment := b.deployment)
    && b.status == a.status.(ready := b.status.ready, error := b.status.error, configVersion := VersionOf(entries, o.namespace, w, tokens))
    && (calm ==> b.status.error == a.status.error)
    && (b.secret == a.secret || HoldsTokens(b.secret, tokens))
    && (b.status.ready ==> ReadyMeans(b, o, entries, w, tokens) && calm)
    && (calm ==> AppliedTo(InMemory(a), InMemory(b), entries, o.namespace, w, tokens))
  }

  /** The snapshot with the status as it is in memory. */
  function InMemory(v: View): Snapshot {
    SnapshotOf(v.(stored := v.status), true)
  }

  lemma SettledIsDeployed(existing: Option<Deployment>, version: string, systemId: string, shape: PodShape, admit: Admission)
    requires Sync(existing, WantedDeployment(version, systemId, shape), admit).1.Settled?
    ensures Deployed(Some(Sync(existing, WantedDeployment(version, systemId, shape), admit).0), version, systemId, shape, admit)
  {
    var wanted := WantedDeployment(version, systemId, shape);
    WantedRuns(version, systemId, shape);
    if KeepsRunner(admit) && shape.image != "" {
      RunnerIsRolledOut(existing, wanted, shape, admit, 0);
    }
  }

  lemma GrantedIsBound(st: State, o: Rbac.Owner, entries: seq<Entry>, tokens: Data, customCA: bool)
    requires o.executors == Executors(entries) && Granted(st, o)
    ensures ConfigIsBound(st, o.kind, o.name, ConfigOf(entries, o.namespace, tokens, customCA))
  {
    RenderedNamespacesAreBound(st, o, entries, tokens, customCA);
    forall r | r in ConfigOf(entries, o.namespace, tokens, customCA)
      ensures KeyOf(o, r.kubernetes.namespace, Base) == Key(r.kubernetes.namespace, BindingName(o.kind, o.name, Base))
      ensures KeyOf(o, r.kubernetes.namespace, Pdb) == Key(r.kubernetes.namespace, BindingName(o.kind, o.name, Pdb))
    {
    }
  }

  /** What the second half comes to, from the outcomes of the Secret and the Deployment. */
  lemma AppliedJoins(a: View, b: View, o: Rbac.Owner, entries: seq<Entry>, w: World, tokens: Data, secret: Outcome, deployment: Outcome)
    requires w.ca.Some? && !a.status.ready && Granted(a.rbac, o) && o.executors == Executors(entries)
    requires forall name :: name in tokens <==> exists i :: 0 <= i < |entries| && entries[i].name == name
    requires b == a.(status := b.status, secret := b.secret, deployment := b.deployment)
    requires
      var text := (w.codec.encode)(ConfigOf(entries, o.namespace, tokens, w.customCA));
      var wanted := WantedDeployment(Version(w.codec, text, w.ca.value), w.systemId, w.shape);
      var rendered := b.secret.Some? && IsRendered(b.secret.value, text, tokens, w.ca.value);
      && b.status == a.status.(ready := b.status.ready, error := b.status.error, configVersion := Version(w.codec, text, w.ca.value))
      && (!secret.Error? ==> b.status.error == a.status.error)
      && (b.status.ready <==> secret.Settled? && deployment.Settled?)
      && (secret.Settled? ==> b.secret == a.secret && rendered)
      && (secret.RequeueNow? ==> b.secret != a.secret && rendered)
      && (secret.Error? ==> b.secret == a.secret || rendered)
      && (!secret.Settled? ==> b.deployment == a.deployment)
      && (secret.Settled? && !deployment.Error? ==>
            b.deployment == Some(Sync(a.deployment, wanted, w.admit).0) && deployment == Sync(a.deployment, wanted, w.admit).1)
    ensures Applied(a, b, o, entries, w, tokens, !secret.Error? && (secret.Settled? ==> !deployment.Error?))
  {
    if b.status.ready {
      GrantedIsBound(b.rbac, o, entries, tokens, w.customCA);
      SettledIsDeployed(a.deployment, b.status.configVersion, w.systemId, w.shape, w.admit);
    }
  }

  /** The second half of a pass: render, write the Secret, then the Deployment, and judge
      whether the object is ready. */
  method Apply(s: Stores, obj: RunnerObject, ghost stored: StoredObject, w: World, tokens: Data, after: int)
    returns (q: Requeue, ghost calm: bool)
    requires obj.WellFormed() && !obj.status.ready && w.ca.Some? && Granted(s.rbac.st, obj.Owner())
    requires forall name :: name in tokens <==> exists i :: 0 <= i < |obj.entries| && obj.entries[i].name == name
    modifies s.secret, s.secret.api, s.deployments, s.deployments.api, obj`entries, obj`status
    ensures obj.WellFormed()
    ensures s.secret.api.faults >= old(s.secret.api.faults) && s.deployments.api.faults >= old(s.deployments.api.faults)
    ensures Applied(old(ViewOf(s, obj, stored)), ViewOf(s, obj, stored), old(obj.Owner()), old(obj.entries), w, tokens, calm)
    ensures s.secret.api.faults == old(s.secret.api.faults) && s.deployments.api.faults == old(s.deployments.api.faults) ==> calm
    ensures q == if obj.status.ready then (if after > 0 then After(after) else Never) else if calm then Now else AfterTimeout
  {
    hide Applied, Granted, IsRendered, ConfigOf;
    ghost var a, owner, entries := ViewOf(s, obj, stored), obj.Owner(), obj.entries;
    var text, version := TomlConfig(obj, tokens, w.ca.value, w.customCA, w.codec);
    obj.status := obj.status.(configVersion := version);
    var secret, error := s.secret.Secret(text, tokens, w.ca.value);
    if error != "" {
      obj.status := obj.status.(error := error);
    }
    var o := secret;
    if secret.Settled? {
      o := s.deployments.Deployment(WantedDeployment(obj.status.configVersion, w.systemId, w.shape), w.admit);
    }
    q := if o.RequeueNow? then Now else AfterTimeout;
    if o.Settled? {
      obj.status := obj.status.(ready := true);
      q := if after > 0 then After(after) else Never;
    }
    calm := !o.Error?;
    AppliedJoins(a, ViewOf(s, obj, stored), owner, entries, w, tokens, secret, o);
  }

  // ----- the pass -----

  function Reset(v: View): View {
    v.(status := v.status.(error := "", ready := false))
  }

  /** What a pass tells in the status: an error if it did not complete RBAC, and otherwise the version
      rendered in this pass, whatever became of it, and no error if its writes succeeded. */
  ghost predicate Told(a: View, b: View, o: Rbac.Owner, entries: seq<Entry>, w: World, t: Summary) {
    if t.bound then (t.applied ==> b.status.error == "") && b.status.configVersion == VersionOf(entries, o.namespace, w, t.tokens)
    else b.status.error != "" && b.status.configVersion == a.status.configVersion
  }

  /** What a pass promises before the status is reported. */
  ghost predicate Provisioned(a: View, b: View, o: Rbac.Owner, entries: seq<Entry>, w: World, t: Summary, q: Requeue) {
    && Outcome(t, o, entries, w, a.rbac, b.rbac, a.status.registrations, a.secret)
    && UnitsServed(Reset(a), b, entries, w.inputs, t.turns)
    // nothing is rendered or deployed before RBAC is completed
    && (b.secret == a.secret || (t.bound && HoldsTokens(b.secret, t.tokens)))
    && (b.deployment == a.deployment || t.bound)
    // ready is sound
    && (b.status.ready ==> t.bound && t.applied && ReadyMeans(b, o, entries, w, t.tokens))
    && q == Answer(t, b.status.ready, w.clock)
    && Told(a, b, o, entries, w, t)
    && (t.bound && t.applied ==> AppliedTo(InMemory(a), InMemory(b), entries, o.namespace, w, t.tokens))
  }

  /** A pass that stopped in its first half. */
  lemma StoppedIsProvisioned(a: View, b: View, o: Rbac.Owner, entries: seq<Entry>, w: World, t: Summary)
    requires Authorized(Reset(a), b, o, entries, w, t) && !t.bound && !t.applied
    ensures Provisioned(a, b, o, entries, w, t, if t.refused then Never else AfterTimeout)
  {
    hide RbacDone, RbacSettled, Refused, Confined, TokensOf, TurnsSucceed, ValidNames, UnitsServed, ReadyMeans, AppliedTo;
  }

  /** What the second half starts from. */
  lemma AuthorizedIsReadyToApply(a: View, b: View, o: Rbac.Owner, entries: seq<Entry>, w: World, t: Summary)
    requires Authorized(a, b, o, entries, w, t) && t.bound
    ensures Granted(b.rbac, o) && b.status.ready == a.status.ready
    ensures forall name :: name in t.tokens <==> exists i :: 0 <= i < |entries| && entries[i].name == name
  {
  }

  /** A pass that came to its second half. */
  lemma AppliedIsProvisioned(a: View, mid: View, b: View, o: Rbac.Owner, entries: seq<Entry>, w: World, t: Summary,
                             q: Requeue, applied: bool)
    requires Authorized(Reset(a), mid, o, entries, w, t) && t.bound && Applied(mid, b, o, entries, w, t.tokens, applied)
    requires var after := ResyncAfter(t.soonest, w.clock);
             q == if b.status.ready then (if after > 0 then After(after) else Never) else if applied then Now else AfterTimeout
    ensures Provisioned(a, b, o, entries, w, t.(applied := applied), q)
  {
    hide RbacDone, RbacSettled, Refused, Confined, TokensOf, TurnsSucceed, ValidNames, ReadyMeans;
    assert !t.refused;
    IntervalIsBounded(t.soonest, w.clock);
  }

  /** The pass over an object that holds its finalizer and is not being deleted. */
  method Provision(s: Stores, obj: RunnerObject, stored: StoredObject, w: World) returns (q: Requeue, ghost t: Summary)
    requires obj.WellFormed() && s.rbac.Valid()
    modifies s.rbac, s.rbac.api, s.gitlab, s.secret, s.secret.api, s.deployments, s.deployments.api
    modifies obj`entries, obj`status, stored`status
    ensures s.rbac.Valid() && obj.WellFormed()
    ensures s.rbac.api.faults >= old(s.rbac.api.faults) && s.secret.api.faults >= old(s.secret.api.faults)
            && s.deployments.api.faults >= old(s.deployments.api.faults)
    ensures Provisioned(old(ViewOf(s, obj, stored)), ViewOf(s, obj, stored), old(obj.Owner()), old(obj.entries), w, t, q)
    ensures s.rbac.api.faults == old(s.rbac.api.faults) ==> t.clean
    ensures s.secret.api.faults == old(s.secret.api.faults) ==> t.read
    ensures (t.bound && s.secret.api.faults == old(s.secret.api.faults)
             && s.deployments.api.faults == old(s.deployments.api.faults)) ==> t.applied
  {
    hide Outcome, Authorized, Applied, Provisioned, RbacDone, UnitsServed, Confined;
    ghost var a, owner, entries := ViewOf(s, obj, stored), obj.Owner(), obj.entries;
    obj.status := obj.status.(error := "", ready := false);
    assert ViewOf(s, obj, stored) == Reset(a);
    var r, refused;
    r, refused, t := Authorize(s, obj, stored, w);
    ghost var mid := ViewOf(s, obj, stored);
    if r.None? {
      q := if refused then Never else AfterTimeout;
      StoppedIsProvisioned(a, mid, owner, entries, w, t);
      return;
    }
    AuthorizedIsReadyToApply(Reset(a), mid, owner, entries, w, t);
    ghost var applied;
    q, applied := Apply(s, obj, stored, w, r.value.0, r.value.1);
    AppliedIsProvisioned(a, mid, ViewOf(s, obj, stored), owner, entries, w, t, q, applied);
    t := t.(applied := applied);
  }

  /** A pass in which no call fails and which nothing stops: what `Convergence` iterates, said
      without its layout of the Secret. */
  ghost predicate FaultFree(before: Snapshot, after: Snapshot, entries: seq<Entry>, namespace: string, w: World) {
    if !before.finalizer then after == before.(finalizer := true)
    else
      after.finalizer && exists tokens ::
        Served(entries, before.registrations, before.secret, w.inputs, tokens, after.registrations)
        && AppliedTo(before, after, entries, namespace, w, tokens)
  }

  /** The pass, as `Convergence` describes it for this object in this world. */
  ghost predicate Describes(spec: Spec, entries: seq<Entry>, namespace: string, w: World) {
    && UsesConfigSecret(spec)
    && spec == Spec(entries, namespace, w.ca.GetOr(""), w.customCA, w.codec, spec.render, spec.recover, w.admit, w.systemId, w.shape)
  }

  lemma ServedTokens(spec: Spec, rs: Registrations, data: Option<Data>, recovered: Data, inputs: Inputs, tokens: Data)
    requires UsesConfigSecret(spec) && UniqueNames(spec.entries)
    requires AreTokensOf(recovered, data.GetOr(map[])) && TokensOf(spec.entries, rs, recovered, inputs, tokens)
    ensures recovered == (spec.recover)(data)
    ensures tokens == TokenMap(spec.entries, rs, recovered, inputs)
  {
    TokensInAre(data, recovered);
    TokensInAre(data, (spec.recover)(data));
    forall e | e in spec.entries
      ensures TurnOf(e, rs, recovered, inputs).Some?
    {
      var i :| 0 <= i < |spec.entries| && spec.entries[i] == e;
    }
    TokenMapHolds(spec.entries, rs, recovered, inputs);
    TokensAreUnique(spec.entries, rs, recovered, inputs, tokens, TokenMap(spec.entries, rs, recovered, inputs));
  }

  /** A fault-free pass is the function `Convergence` iterates. */
  lemma FaultFreeIsPass(before: Snapshot, after: Snapshot, spec: Spec, w: World)
    requires Describes(spec, spec.entries, spec.namespace, w) && UniqueNames(spec.entries)
    requires FaultFree(before, after, spec.entries, spec.namespace, w)
    ensures after == FaultFreePass(before, spec, w.inputs)
  {
    if before.finalizer {
      var known := TokensIn(before.secret);
      var tokens :| Served(spec.entries, before.registrations, before.secret, w.inputs, tokens, after.registrations)
                    && AppliedTo(before, after, spec.entries, spec.namespace, w, tokens);
      TokensInAre(before.secret, known);
      ServedTokens(spec, before.registrations, before.secret, known, w.inputs, tokens);
      RenderingIsUnique(after.secret.value, DataOf(spec, tokens), TextOf(spec, tokens), tokens, spec.ca);
    }
  }

  /** What a whole pass promises, the status reported. */
  ghost predicate Passed(a: View, b: View, o: Rbac.Owner, entries: seq<Entry>, w: World, t: Summary, q: Requeue) {
    && Outcome(t, o, entries, w, a.rbac, b.rbac, a.status.registrations, a.secret)
    && (!t.bound ==> b.secret == a.secret && b.deployment == a.deployment)
    && (t.turns == 0 ==> b.live == a.live && b.stored.registrations == a.stored.registrations)
    // ready is sound, in memory and as stored, down to the tokens
    && (b.status.ready ==> t.bound && t.applied && ReadyMeans(b, o, entries, w, t.tokens))
    && (b.stored.ready ==> b.stored == b.status || b.stored == a.stored)
    && q == Answer(t, b.status.ready, w.clock)
    && Told(a, b, o, entries, w, t)
    && (t.served ==> Served(entries, a.status.registrations, a.secret, w.inputs, t.tokens, b.status.registrations))
    // without faults the pass is the one `Convergence` iterates
    && (t.reported ==> b.stored == b.status)
    && (t.bound && t.applied && t.reported ==>
          FaultFree(SnapshotOf(a, true), SnapshotOf(b, true), entries, o.namespace, w))
    // with or without faults, every unit goes through passes that `OrphanAccounting` counts
    && Accounted(entries, w.inputs, t.turns, StateOf(a), StateOf(b))
  }

  /** Immediate status writes never say that the object is ready. */
  lemma {:induction false} StoredMidPass(entries: seq<Entry>, stored0: Status, status0: Status, known: Data, inputs: Inputs)
    ensures var stored := StoredAll(entries, stored0, status0, known, inputs); stored == stored0 || stored.ready == status0.ready
    decreases |entries|
  {
    if entries != [] {
      StoredMidPass(entries[..|entries| - 1], stored0, status0, known, inputs);
    }
  }

  lemma StoredIsNotReady(a: View, b: View, entries: seq<Entry>, inputs: Inputs, turns: nat)
    requires UnitsServed(Reset(a), b, entries, inputs, turns)
    ensures b.stored == a.stored || !b.stored.ready
  {
    StoredMidPass(entries[..turns], a.stored, Reset(a).status, TokensIn(a.secret), inputs);
  }

  lemma ServedInFull(a: View, b: View, o: Rbac.Owner, entries: seq<Entry>, w: World, t: Summary)
    requires Outcome(t, o, entries, w, a.rbac, b.rbac, a.status.registrations, a.secret) && t.served
    requires UnitsServed(Reset(a), b, entries, w.inputs, t.turns)
    ensures Served(entries, a.status.registrations, a.secret, w.inputs, t.tokens, b.status.registrations)
  {
    assert entries[..t.turns] == entries;
  }

  lemma ProvisionedIsAccountedFor(a: View, mid: View, b: View, o: Rbac.Owner, entries: seq<Entry>, w: World, t: Summary)
    requires Outcome(t, o, entries, w, a.rbac, mid.rbac, a.status.registrations, a.secret)
    requires UnitsServed(Reset(a), mid, entries, w.inputs, t.turns)
    requires mid.secret == a.secret || (t.bound && HoldsTokens(mid.secret, t.tokens))
    requires a.stored == a.status && UniqueNames(entries) && (a.status.registrations.One? ==> |entries| <= 1)
    requires b == mid.(stored := b.stored) && (b.stored == mid.stored || b.stored == mid.status)
    ensures Accounted(entries, w.inputs, t.turns, StateOf(a), StateOf(b))
  {
    hide RbacDone, RbacSettled, Refused, Confined, ValidNames;
    TokensInAre(a.secret, TokensIn(a.secret));
    PassIsAccountedFor(entries, w.inputs, StateOf(a), a.stored, Reset(a).status, TokensIn(a.secret), t.turns, t.tokens, StateOf(b));
  }

  lemma ReadyWhateverIsStored(a: View, b: View, o: Rbac.Owner, entries: seq<Entry>, w: World, tokens: Data)
    requires b == a.(stored := b.stored)
    ensures ReadyMeans(a, o, entries, w, tokens) == ReadyMeans(b, o, entries, w, tokens)
  {
    hide ConfigOf, IsRendered, Deployed, ConfigIsBound, Version;
  }

  lemma NoTurnsChangeNothing(a: View, b: View, entries: seq<Entry>, inputs: Inputs)
    requires UnitsServed(a, b, entries, inputs, 0)
    ensures b.live == a.live && b.stored == a.stored && b.status.registrations == a.status.registrations
  {
    assert entries[..0] == [];
  }

  /** Once the status is reported, what is in memory is what is stored. */
  lemma ReportedIsFaultFree(a: View, mid: View, b: View, o: Rbac.Owner, entries: seq<Entry>, w: World, tokens: Data)
    requires a.stored == a.status && b == mid.(stored := mid.status)
    requires Served(entries, a.status.registrations, a.secret, w.inputs, tokens, mid.status.registrations)
    requires AppliedTo(InMemory(a), InMemory(mid), entries, o.namespace, w, tokens)
    ensures FaultFree(SnapshotOf(a, true), SnapshotOf(b, true), entries, o.namespace, w)
  {
    hide Served, AppliedTo;
  }

  lemma BoundIsServed(t: Summary, o: Rbac.Owner, entries: seq<Entry>, w: World, before: State, after: State,
                      rs0: Registrations, secret0: Option<Data>)
    requires Outcome(t, o, entries, w, before, after, rs0, secret0) && t.bound
    ensures t.served && !t.refused
  {
  }

  lemma OutcomeWhateverIsReported(t: Summary, o: Rbac.Owner, entries: seq<Entry>, w: World, before: State, after: State,
                                  rs0: Registrations, secret0: Option<Data>, reported: bool)
    requires Outcome(t, o, entries, w, before, after, rs0, secret0)
    ensures Outcome(t.(reported := reported), o, entries, w, before, after, rs0, secret0)
  {
    hide RbacDone, RbacSettled, Refused, Revoked, Confined, TokensOf, SoonestOf, Provisionable, ForeignKept, AddsFit;
  }

  /** The report, joined to the pass before it. */
  lemma ReportedIsPassed(a: View, mid: View, b: View, o: Rbac.Owner, entries: seq<Entry>, w: World, t: Summary, q: Requeue, reported: bool)
    requires Provisioned(a, mid, o, entries, w, t, q)
    requires a.stored == a.status && UniqueNames(entries) && (a.status.registrations.One? ==> |entries| <= 1)
    requires b == mid.(stored := b.stored) && (b.stored == mid.stored || b.stored == mid.status) && (reported ==> b.stored == mid.status)
    ensures Passed(a, b, o, entries, w, t.(reported := reported), q)
  {
    hide Outcome, Accounted, ReadyMeans, Served, AppliedTo, VersionOf, UnitsServed, FaultFree;
    OutcomeWhateverIsReported(t, o, entries, w, a.rbac, mid.rbac, a.status.registrations, a.secret, reported);
    ReadyWhateverIsStored(mid, b, o, entries, w, t.tokens);
    ProvisionedIsAccountedFor(a, mid, b, o, entries, w, t);
    StoredIsNotReady(a, mid, entries, w.inputs, t.turns);
    if t.turns == 0 {
      NoTurnsChangeNothing(Reset(a), mid, entries, w.inputs);
    }
    if t.served {
      ServedInFull(a, mid, o, entries, w, t);
    }
    if t.bound && t.applied && reported {
      BoundIsServed(t, o, entries, w, a.rbac, mid.rbac, a.status.registrations, a.secret);
      ReportedIsFaultFree(a, mid, b, o, entries, w, t.tokens);
    }
  }

  /** The pass over an object that holds its finalizer, with the status write deferred to its
      end. */
  method ProvisionAndReport(s: Stores, obj: RunnerObject, stored: StoredObject, w: World) returns (q: Requeue, ghost t: Summary)
    requires obj.WellFormed() && s.rbac.Valid() && obj.status == stored.status
    modifies s.crs, s.rbac, s.rbac.api, s.gitlab, s.secret, s.secret.api, s.deployments, s.deployments.api
    modifies obj`entries, obj`status, stored`status
    ensures s.rbac.Valid() && obj.WellFormed()
    ensures Passed(old(ViewOf(s, obj, stored)), ViewOf(s, obj, stored), old(obj.Owner()), old(obj.entries), w, t, q)
    ensures s.rbac.api.faults == old(s.rbac.api.faults) ==> t.clean
    ensures s.secret.api.faults == old(s.secret.api.faults) ==> t.read
    ensures (t.bound && s.secret.api.faults == old(s.secret.api.faults)
             && s.deployments.api.faults == old(s.deployments.api.faults)) ==> t.applied
    ensures s.crs.faults == old(s.crs.faults) ==> t.reported
  {
    hide Provisioned, Passed;
    ghost var a, owner, entries := ViewOf(s, obj, stored), obj.Owner(), obj.entries;
    q, t := Provision(s, obj, stored, w);
    ghost var mid, faults := ViewOf(s, obj, stored), s.crs.faults;
    ghost var _, _ := WriteStatus(obj, stored, s.crs);
    ReportedIsPassed(a, mid, ViewOf(s, obj, stored), owner, entries, w, t, q, s.crs.faults == faults);
    t := t.(reported := s.crs.faults == faults);
  }

  /** The first pass over an object sets its finalizer and does no more. */
  method AddFinalizer(obj: RunnerObject, stored: StoredObject, crs: Api) returns (q: Requeue)
    requires obj.status == stored.status && obj.finalizer == stored.finalizer && obj.annotations == stored.annotations
    modifies crs, obj`finalizer, stored`finalizer, stored`annotations, stored`status
    ensures crs.faults >= old(crs.faults)
    ensures stored.status == old(stored.status) && stored.annotations == old(stored.annotations)
    ensures stored.finalizer == old(stored.finalizer) || stored.finalizer
    ensures crs.faults == old(crs.faults) ==> stored.finalizer && q.Now?
    ensures q.AfterTimeout? || (q.Now? && stored.finalizer)
  {
    obj.finalizer := true;
    var ok := Finalize.UpdateObject(obj, stored, crs);
    q := if ok then Now else AfterTimeout;
    ghost var _, _ := WriteStatus(obj, stored, crs);
  }

  /** One pass over an object read fresh. */
  method Reconcile(s: Stores, obj: RunnerObject, stored: StoredObject, w: World)
    returns (q: Requeue, ghost t: Summary, ghost ending: Option<(Finalize.Ending, Finalize.Progress)>)
    requires obj.WellFormed() && s.rbac.Valid()
    requires obj.deleting == stored.deleting && obj.finalizer == stored.finalizer
    requires obj.annotations == stored.annotations && obj.status == stored.status
    modifies s.crs, s.rbac, s.rbac.api, s.gitlab, s.secret, s.secret.api, s.deployments, s.deployments.api, s.pods, s.pods.api
    modifies obj`entries, obj`status, obj`finalizer, obj`annotations, stored`finalizer, stored`annotations, stored`status
    ensures s.rbac.Valid() && obj.WellFormed()
    // an object marked for deletion is shut down, and nothing else
    ensures ending.Some? <==> obj.deleting
    ensures obj.deleting ==>
              && ending.value.0 == Finalize.Ending(old(obj.Owner()), Finalize.Units(old(obj.entries), old(obj.status.registrations)),
                                                   w.now, w.removals, ending.value.0.calm)
              && Finalize.Finalized(old(Finalize.SceneOf(s, stored)), Finalize.SceneOf(s, stored), ending.value.0, ending.value.1)
              && stored.status == old(stored.status)
              && q == if ending.value.1.ended then Now else AfterTimeout
    ensures Shutdown.RespectsMark(Shutdown.Moment(old(stored.deleting), old(Finalize.SceneOf(s, stored))),
                                  Shutdown.Moment(stored.deleting, Finalize.SceneOf(s, stored)))
    // an object without finalizer gets it, and nothing else
    ensures !obj.deleting && !old(obj.finalizer) ==>
              && ViewOf(s, obj, stored) == old(ViewOf(s, obj, stored)) && (q.AfterTimeout? || (q.Now? && stored.finalizer))
              && (s.crs.faults == old(s.crs.faults) ==> stored.finalizer && q.Now?)
    // any other goes through the whole pass
    ensures !obj.deleting && old(obj.finalizer) ==>
              && stored.finalizer
              && Passed(old(ViewOf(s, obj, stored)), ViewOf(s, obj, stored), old(obj.Owner()), old(obj.entries), w, t, q)
              && (s.rbac.api.faults == old(s.rbac.api.faults) ==> t.clean)
              && (s.secret.api.faults == old(s.secret.api.faults) ==> t.read)
              && ((t.bound && s.secret.api.faults == old(s.secret.api.faults)
                   && s.deployments.api.faults == old(s.deployments.api.faults)) ==> t.applied)
              && (s.crs.faults == old(s.crs.faults) ==> t.reported)
  {
    hide Passed;
    t, ending := Summary(false, 0, false, map[], None, false, false, false, false, false, false), None;
    if obj.deleting {
      ghost var e, p;
      var ok;
      ok, p, e := Finalize.FinalizeDeletion(s, obj, stored, w.now, w.removals);
      ending := Some((e, p));
      q := if ok then Now else AfterTimeout;
    } else if !obj.finalizer {
      q := AddFinalizer(obj, stored, s.crs);
    } else {
      q, t := ProvisionAndReport(s, obj, stored, w);
    }
  }

  /** So a pass without faults over an object that nothing stops is the pass `Convergence`
      iterates, from the snapshot it found to the one it leaves. */
  lemma FaultFreePassConverges(a: View, b: View, o: Rbac.Owner, w: World, t: Summary, q: Requeue, spec: Spec)
    requires Passed(a, b, o, spec.entries, w, t, q) && t.clean && t.read && t.applied && t.reported
    requires Provisionable(o, spec.entries, a.status.registrations, a.secret, w)
    requires Describes(spec, spec.entries, o.namespace, w) && UniqueNames(spec.entries)
    ensures SnapshotOf(b, true) == FaultFreePass(SnapshotOf(a, true), spec, w.inputs)
    ensures t.bound && RbacDone(a.rbac, b.rbac, o, true, t.raced)
  {
    FaultFreeIsPass(SnapshotOf(a, true), SnapshotOf(b, true), spec, w);
  }
}
