/** How many runners one managed unit can leave on GitLab, over every run of the operator.

    A pass may stop anywhere: each API call can fail, or take effect and report an error, and
    a crash is such a failure followed by a failed status write. Between passes anyone may
    edit the Secret, revoke a token or delete a runner. */
module OrphanAccounting {
  import opened Common
  import opened ManagedRunner

  /** The three stores as one unit sees them. `token` is its key in the config Secret, ""
      when the Secret or the key is missing. */
  datatype World = World(live: Runners, status: Registration, token: string)

  const Empty := World(map[], Registration(0, "", None), "")

  /** One pass over a managed unit. `secretWritten`: the pass went on to leave its token in the
      Secret. `statusWritten`: the status write deferred to the end of the pass landed. */
  datatype Pass = Pass(hash: string, now: int, answers: Answers, secretWritten: bool, statusWritten: bool)

  function Ensured(w: World, p: Pass): UnitStep {
    EnsureRunner(w.status, w.token, p.hash, p.now, p.answers)
  }

  function AfterPass(w: World, p: Pass): World {
    var step := Ensured(w, p);
    World(
      Effects(w.live, step.calls, p.answers),
      if step.stored || p.statusWritten then step.reg else w.status,
      if step.issued.Some? && p.secretWritten then step.issued.value.token else w.token)
  }

  datatype Event =
    | Reconciled(pass: Pass)
    // the Secret was rendered while the unit was switched to a provided token or left out of the spec
    | Unmanaged(token: string)
    | SecretEdited(token: string)
    | TokenRevoked(id: int, token: string)
    | RunnersRemoved(ids: set<int>)

  function Next(w: World, e: Event): World {
    match e
    case Reconciled(p) => AfterPass(w, p)
    case Unmanaged(token) => w.(token := token)
    case SecretEdited(token) => w.(token := token)
    case TokenRevoked(id, token) => if id in w.live then w.(live := w.live[id := token]) else w
    case RunnersRemoved(ids) => w.(live := w.live - ids)
  }

  function Run(w: World, events: seq<Event>): World
    decreases |events|
  {
    if events == [] then w else Run(Next(w, events[0]), events[1..])
  }

  // ----- faults -----

  predicate RunnerMade(w: World, p: Pass) {
    Create in Ensured(w, p).calls && p.answers.create.Applied()
  }

  /** GitLab made a runner, and its id reached neither status write. */
  predicate IdLost(w: World, p: Pass) {
    RunnerMade(w, p) && !(p.answers.create.Done? && (Ensured(w, p).stored || p.statusWritten))
  }

  /** The id of the new runner was stored, but the pass ended before its token was. */
  predicate TokenLost(w: World, p: Pass) {
    RunnerMade(w, p) && !IdLost(w, p) && !(Ensured(w, p).issued.Some? && p.secretWritten)
  }

  function Faults(w: World, e: Event): nat {
    match e
    case Reconciled(p) => if IdLost(w, p) || TokenLost(w, p) then 1 else 0
    case Unmanaged(token) => if token != w.token then 1 else 0
    case SecretEdited(token) => if token != w.token then 1 else 0
    case TokenRevoked(id, token) => if id in w.live && token != w.live[id] then 1 else 0
    case RunnersRemoved(_) => 0
  }

  function FaultsOf(w: World, events: seq<Event>): nat
    decreases |events|
  {
    if events == [] then 0 else Faults(w, events[0]) + FaultsOf(Next(w, events[0]), events[1..])
  }

  /** GitLab hands out nonzero ids of its own that are not in use, and nonempty tokens. */
  predicate FreshRunners(w: World, events: seq<Event>)
    decreases |events|
  {
    events == [] || (
      && (events[0].Reconciled? ==>
            var made := events[0].pass.answers.created;
            made.id != 0 && made.id !in w.live && made.token != "")
      && FreshRunners(Next(w, events[0]), events[1..]))
  }

  // ----- the invariant -----

  /** The live runners the status does not name. */
  function Orphans(w: World): set<int> {
    w.live.Keys - {w.status.runnerId}
  }

  /** The status runner is live and the Secret holds the token that deletes it. */
  predicate Covered(w: World) {
    w.status.runnerId in w.live && w.token != "" && w.live[w.status.runnerId] == w.token
  }

  /** Runners the operator may be unable to delete: the orphans, and the status runner while
      its token is not at hand. */
  function Exposed(w: World): int {
    |w.live| - (if Covered(w) then 1 else 0)
  }

  lemma OrphansAreExposed(w: World)
    ensures |Orphans(w)| <= Exposed(w)
  {
  }

  lemma SubmapIsSmaller(small: Runners, big: Runners)
    requires small.Keys <= big.Keys
    ensures |small| <= |big|
    ensures small.Keys != big.Keys ==> |small| < |big|
  {
    var extra := big.Keys - small.Keys;
    assert big.Keys == small.Keys + extra;
    assert |big.Keys| == |small.Keys| + |extra|;
    assert |small| == |small.Keys| && |big| == |big.Keys|;
  }

  /** The calls one pass makes besides creating: they delete by the token at hand or by the
      status id, or only check. */
  predicate IsDeleteOrCheck(w: World, call: Call) {
    call == DeleteByToken(w.token) || call == DeleteById(w.status.runnerId) || call.Verify?
  }

  predicate ConfirmedDelete(w: World, call: Call, a: Answers) {
    || (call == DeleteByToken(w.token) && a.deleteByToken.Done?)
    || (call == DeleteById(w.status.runnerId) && a.deleteById.Done?)
  }

  lemma OneDeleteExposesNothing(w: World, live: Runners, call: Call, a: Answers)
    requires IsDeleteOrCheck(w, call)
    ensures
      var left := Effect(live, call, a);
      && left.Keys <= live.Keys && |left| <= |live|
      && (forall id | id in left :: left[id] == live[id])
      && (live.Keys != left.Keys ==> |left| < |live|)
      && (ConfirmedDelete(w, call, a) && w.status.runnerId in left ==> left[w.status.runnerId] != w.token)
  {
    SubmapIsSmaller(Effect(live, call, a), live);
  }

  /** Deletes expose nothing; after a confirmed one the status runner is gone, or was
      counted as exposed because its token was not at hand. */
  lemma {:induction false} DeletesExposeNothing(w: World, calls: seq<Call>, a: Answers)
    requires forall i | 0 <= i < |calls| :: IsDeleteOrCheck(w, calls[i])
    ensures
      var left := Effects(w.live, calls, a);
      && left.Keys <= w.live.Keys
      && (forall id | id in left :: left[id] == w.live[id])
      && |left| <= |w.live|
      && Exposed(w.(live := left)) <= Exposed(w)
      && ((exists i :: 0 <= i < |calls| && ConfirmedDelete(w, calls[i], a)) ==> |left| <= Exposed(w))
    decreases |calls|
  {
    if calls != [] {
      var n := |calls| - 1;
      DeletesExposeNothing(w, calls[..n], a);
      OneDeleteExposesNothing(w, Effects(w.live, calls[..n], a), calls[n], a);
      forall i | 0 <= i < n && ConfirmedDelete(w, calls[i], a)
        ensures |Effects(w.live, calls, a)| <= Exposed(w)
      {
        assert calls[..n][i] == calls[i];
      }
    }
  }

  /** The runners left just before the pass asks for a new one. */
  function BeforeCreate(w: World, p: Pass): Runners
    requires Create in Ensured(w, p).calls
  {
    var calls := Ensured(w, p).calls;
    Effects(w.live, calls[..|calls| - 1], p.answers)
  }

  /** Up to the point where a runner is created, a pass exposes nothing new; and by then the
      status runner is gone, or was already counted as exposed. */
  lemma CallsExposeNothing(w: World, p: Pass)
    requires 0 !in w.live
    ensures
      var calls := Ensured(w, p).calls;
      if Create in calls then
        && Effects(w.live, calls, p.answers) == Effect(BeforeCreate(w, p), Create, p.answers)
        && BeforeCreate(w, p).Keys <= w.live.Keys
        && |BeforeCreate(w, p)| <= Exposed(w)
      else
        && Effects(w.live, calls, p.answers).Keys <= w.live.Keys
        && Exposed(w.(live := Effects(w.live, calls, p.answers))) <= Exposed(w)
  {
    var a, calls := p.answers, Ensured(w, p).calls;
    CreateOnlyAfterDelete(w.status, w.token, p.hash, p.now, a);
    OtherCallsDelete(w, p);
    if Create in calls {
      var n := |calls| - 1;
      assert calls[..n] + [calls[n]] == calls;
      DeletesExposeNothing(w, calls[..n], a);
      ConfirmedUnlessUnregistered(w, p);
    } else {
      DeletesExposeNothing(w, calls, a);
    }
  }

  lemma OtherCallsDelete(w: World, p: Pass)
    ensures forall call | call in Ensured(w, p).calls :: call == Create || IsDeleteOrCheck(w, call)
  {
  }

  /** Before creating, a pass confirmed the old runner's deletion, unless there was none to
      delete or its token was missing, which is exposure already counted. */
  lemma ConfirmedUnlessUnregistered(w: World, p: Pass)
    requires 0 !in w.live
    requires Create in Ensured(w, p).calls
    ensures
      var before := Ensured(w, p).calls[..|Ensured(w, p).calls| - 1];
      !Covered(w) || exists i :: 0 <= i < |before| && ConfirmedDelete(w, before[i], p.answers)
  {
    var calls := Ensured(w, p).calls;
    var before := calls[..|calls| - 1];
    CreateOnlyAfterDelete(w.status, w.token, p.hash, p.now, p.answers);
    if Covered(w) {
      var confirmed := if DeleteByToken(w.token) in calls && p.answers.deleteByToken.Done? then DeleteByToken(w.token)
                       else DeleteById(w.status.runnerId);
      var i :| 0 <= i < |calls| && calls[i] == confirmed;
      assert before[i] == confirmed;
    }
  }

  lemma PassIsPaidFor(w: World, p: Pass)
    requires 0 !in w.live
    requires FreshRunners(w, [Reconciled(p)])
    ensures 0 !in AfterPass(w, p).live
    ensures Exposed(AfterPass(w, p)) <= Exposed(w) + Faults(w, Reconciled(p))
  {
    hide Ensured, BeforeCreate, Effects;
    CallsExposeNothing(w, p);
    var step, after := Ensured(w, p), AfterPass(w, p);
    if Create in step.calls {
      assert after.live == Effect(BeforeCreate(w, p), Create, p.answers);
      if RunnerMade(w, p) {
        assert |after.live| == |BeforeCreate(w, p)| + 1;
      }
      CreateOutcome(w, p);
    } else {
      IssuedWithoutCreate(w, p);
    }
  }

  lemma CreateOutcome(w: World, p: Pass)
    requires Create in Ensured(w, p).calls
    ensures
      var step := Ensured(w, p);
      if p.answers.create.Done? then
        && step.reg.runnerId == p.answers.created.id
        && (step.issued.Some? ==> step.stored && step.issued.value.token == p.answers.created.token)
      else step.reg == w.status && step.issued.None?
  {
  }

  lemma IssuedWithoutCreate(w: World, p: Pass)
    requires Create !in Ensured(w, p).calls
    ensures Ensured(w, p).reg == w.status && !Ensured(w, p).stored
    ensures Ensured(w, p).issued.Some? ==> Ensured(w, p).issued.value.token == w.token
  {
  }

  /** One step exposes at most as many runners as it has faults. */
  lemma StepIsPaidFor(w: World, e: Event)
    requires 0 !in w.live
    requires FreshRunners(w, [e])
    ensures 0 !in Next(w, e).live
    ensures Exposed(Next(w, e)) <= Exposed(w) + Faults(w, e)
  {
    hide Ensured, AfterPass;
    match e
    case Reconciled(p) => PassIsPaidFor(w, p);
    case RunnersRemoved(ids) => SubmapIsSmaller(w.live - ids, w.live);
    case _ =>
  }

  /** Over every run, the live runners other than the one in status never outnumber the
      faults, whatever was exposed at the start. */
  lemma {:induction false} RunIsPaidFor(w: World, events: seq<Event>)
    requires 0 !in w.live
    requires FreshRunners(w, events)
    ensures 0 !in Run(w, events).live
    ensures Exposed(Run(w, events)) <= Exposed(w) + FaultsOf(w, events)
    decreases |events|
  {
    if events != [] {
      StepIsPaidFor(w, events[0]);
      RunIsPaidFor(Next(w, events[0]), events[1..]);
    }
  }

  lemma OrphansNeverOutnumberFaults(events: seq<Event>)
    requires FreshRunners(Empty, events)
    ensures |Orphans(Run(Empty, events))| <= FaultsOf(Empty, events)
  {
    RunIsPaidFor(Empty, events);
    OrphansAreExposed(Run(Empty, events));
  }

  /** Without faults no runner but the status one is ever live, and its token is in the Secret. */
  lemma NoFaultsNoDuplicates(events: seq<Event>)
    requires FreshRunners(Empty, events) && FaultsOf(Empty, events) == 0
    ensures
      var w := Run(Empty, events);
      w.live == map[] || (w.live == map[w.status.runnerId := w.token] && w.token != "")
  {
    RunIsPaidFor(Empty, events);
    var w := Run(Empty, events);
    OrphansAreExposed(w);
    assert |w.live| <= if Covered(w) then 1 else 0;
    if w.live != map[] {
      assert w.live.Keys == {w.status.runnerId};
    }
  }

  /** Every run without faults from `w` ends with the status naming all live runners. */
  ghost predicate NeverDuplicates(w: World) {
    forall events | FreshRunners(w, events) && FaultsOf(w, events) == 0 :: Orphans(Run(w, events)) == {}
  }

  /** GitLab holds no runner of the unit, or the status one alone and the Secret its token. */
  predicate Clean(w: World) {
    w.live == map[] || (w.token != "" && w.live == map[w.status.runnerId := w.token])
  }

  lemma CleanIsUnexposed(w: World)
    ensures Clean(w) <==> Exposed(w) == 0
  {
    if Exposed(w) == 0 && w.live != map[] {
      assert w.live.Keys == {w.status.runnerId} by {
        assert |w.live.Keys - {w.status.runnerId}| == 0;
      }
      assert w.live == map[w.status.runnerId := w.token];
    }
  }

  /** "No duplicate" holds of a unit exactly when its stores start out clean. */
  lemma NoDuplicatesIff(w: World)
    requires 0 !in w.live
    ensures Clean(w) <==> NeverDuplicates(w)
  {
    CleanIsUnexposed(w);
    if Clean(w) {
      forall events | FreshRunners(w, events) && FaultsOf(w, events) == 0
        ensures Orphans(Run(w, events)) == {}
      {
        RunIsPaidFor(w, events);
        OrphansAreExposed(Run(w, events));
      }
    } else if Orphans(w) != {} {
      assert Run(w, []) == w && FreshRunners(w, []) && FaultsOf(w, []) == 0;
    } else {
      OnlyStatusRunner(w);
      UncoveredIsDuplicated(w);
    }
  }

  lemma OnlyStatusRunner(w: World)
    requires Orphans(w) == {} && !Clean(w)
    ensures w.status.runnerId in w.live && w.live.Keys == {w.status.runnerId} && (w.token != "" ==> w.live[w.status.runnerId] != w.token)
  {
    assert forall id | id in w.live && id != w.status.runnerId :: id in Orphans(w);
    assert w.live != map[];
    assert w.status.runnerId in w.live ==> w.live == map[w.status.runnerId := w.live[w.status.runnerId]];
  }

  /** A new runner for other options, over a token that does not delete the old one. */
  lemma UncoveredIsDuplicated(w: World)
    requires 0 !in w.live && w.status.runnerId in w.live && w.live.Keys == {w.status.runnerId}
    requires w.token != "" ==> w.live[w.status.runnerId] != w.token
    ensures !NeverDuplicates(w)
  {
    var oldId := w.status.runnerId;
    var id := if oldId == 1 then 2 else 1;
    var a := Answers(true, Done, Failed, Done, CreatedRunner(id, "t", None), Accepted, Done);
    var p := Pass(w.status.hash + "'", 0, a, true, true);
    assert p.hash != w.status.hash by {
      assert |p.hash| == |w.status.hash| + 1;
    }
    var first := if w.token != "" then DeleteByToken(w.token) else DeleteById(oldId);
    var step, after := Ensured(w, p), AfterPass(w, p);
    assert step.calls == [] + [first] + [Create];
    EffectsSnoc(w.live, [], first, a);
    EffectsSnoc(w.live, [] + [first], Create, a);
    assert oldId in Effect(w.live, first, a);
    assert oldId in after.live && after.status.runnerId == id;
    assert [Reconciled(p)][1..] == [];
    assert Run(w, [Reconciled(p)]) == after && FaultsOf(w, [Reconciled(p)]) == 0 && FreshRunners(w, [Reconciled(p)]);
    assert oldId in Orphans(Run(w, [Reconciled(p)]));
  }

  // ----- deregistration at the end of the object's life -----

  /** After a confirmed deregistration, GitLab holds at most as many runners of the unit as
      there were faults: none at all in a fault-free life. */
  lemma NothingLeftAfterDeregistration(events: seq<Event>, a: Answers, byIdClient: bool)
    requires FreshRunners(Empty, events)
    requires var w := Run(Empty, events); Deregister(w.status.runnerId, w.token, a, byIdClient).1
    ensures
      var w := Run(Empty, events);
      |Effects(w.live, Deregister(w.status.runnerId, w.token, a, byIdClient).0, a)| <= FaultsOf(Empty, events)
  {
    RunIsPaidFor(Empty, events);
    var w := Run(Empty, events);
    var calls := Deregister(w.status.runnerId, w.token, a, byIdClient).0;
    assert ConfirmedDelete(w, calls[|calls| - 1], a);
    DeletesExposeNothing(w, calls, a);
  }

  // ----- the bound is met -----

  /** Every call answers; only the Secret write may be missed. */
  function SmoothPass(w: World, id: int, token: string, secretWritten: bool): Pass {
    Pass(w.status.hash + "'", 0, Answers(true, Done, Done, Done, CreatedRunner(id, token, None), Accepted, Done), secretWritten, true)
  }

  /** The status runner is live, but the Secret holds a token GitLab no longer knows. */
  predicate Stale(w: World, maxId: int) {
    && w.token != "" && 0 < maxId && w.status.runnerId != 0 && w.status.runnerId in w.live
    && forall id | id in w.live :: 0 != id <= maxId && w.live[id] != w.token
  }

  /** Creating over a stale token confirms a deletion that deletes nothing. */
  lemma StalePass(w: World, maxId: int, token: string, secretWritten: bool)
    requires Stale(w, maxId) && token != ""
    ensures
      var p := SmoothPass(w, maxId + 1, token, secretWritten);
      && FreshRunners(w, [Reconciled(p)])
      && AfterPass(w, p) == World(w.live[maxId + 1 := token], Registration(maxId + 1, p.hash, None), if secretWritten then token else w.token)
      && Faults(w, Reconciled(p)) == if secretWritten then 0 else 1
  {
    var p := SmoothPass(w, maxId + 1, token, secretWritten);
    var step := Ensured(w, p);
    assert p.hash != w.status.hash by {
      assert |p.hash| == |w.status.hash| + 1;
    }
    assert step.calls == [] + [DeleteByToken(w.token)] + [Create];
    EffectsSnoc(w.live, [], DeleteByToken(w.token), p.answers);
    EffectsSnoc(w.live, [] + [DeleteByToken(w.token)], Create, p.answers);
    var left := Effect(w.live, DeleteByToken(w.token), p.answers);
    assert forall id | id in w.live :: id in left && left[id] == w.live[id];
    assert left == w.live;
  }

  lemma {:induction false} StaleRuns(w: World, maxId: int, n: nat) returns (events: seq<Event>)
    requires Stale(w, maxId)
    ensures FreshRunners(w, events) && FaultsOf(w, events) == n
    ensures |Orphans(Run(w, events))| == |w.live| + n
    decreases n
  {
    var token := w.token + "'";
    assert token != w.token by {
      assert |token| == |w.token| + 1;
    }
    var p := SmoothPass(w, maxId + 1, token, n == 0);
    StalePass(w, maxId, token, n == 0);
    var after := AfterPass(w, p);
    if n == 0 {
      events := [Reconciled(p)];
      assert events[1..] == [];
      assert Orphans(after) == w.live.Keys;
    } else {
      var rest := StaleRuns(after, maxId + 1, n - 1);
      events := [Reconciled(p)] + rest;
      assert events[1..] == rest;
    }
  }

  /** The bound cannot be lowered: for every n some run with n faults leaves n orphans, each
      fault being a pass that stops between the status write and the Secret write. */
  lemma BoundIsMet(n: nat) returns (events: seq<Event>)
    ensures FreshRunners(Empty, events) && FaultsOf(Empty, events) == n
    ensures |Orphans(Run(Empty, events))| == n
  {
    if n == 0 {
      events := [];
    } else {
      var first := SmoothPass(Empty, 1, "t", true);
      var registered := AfterPass(Empty, first);
      assert Ensured(Empty, first).calls == [] + [Create];
      EffectsSnoc(map[], [], Create, first.answers);
      assert registered == World(map[1 := "t"], Registration(1, "'", None), "t");
      var second := SmoothPass(registered, 2, "tt", false);
      var calls := Ensured(registered, second).calls;
      assert second.hash == "''";
      assert calls == [] + [DeleteByToken("t")] + [Create];
      EffectsSnoc(registered.live, [], DeleteByToken("t"), second.answers);
      EffectsSnoc(registered.live, [] + [DeleteByToken("t")], Create, second.answers);
      var stale := AfterPass(registered, second);
      assert stale == World(map[2 := "tt"], Registration(2, "''", None), "t");
      var rest := StaleRuns(stale, 2, n - 1);
      var tail := [Reconciled(second)] + rest;
      assert tail[1..] == rest;
      events := [Reconciled(first)] + tail;
      assert events[1..] == tail;
    }
  }
}
