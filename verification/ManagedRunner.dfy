/** The life of one managed runner: registration on GitLab, its id in the CR status and its
    token in the config Secret. */
module ManagedRunner {
  import opened Common

  const HOUR := 3600

  /** A managed token closer to expiry than this is replaced. */
  const TOKEN_REFRESH_THRESHOLD := 24 * HOUR

  datatype CreatedRunner = CreatedRunner(id: int, token: string, expiresAt: Option<int>)

  /** What the status records about one runner unit; id 0 means none. */
  datatype Registration = Registration(runnerId: int, hash: string, expiresAt: Option<int>)

  datatype Verdict = Accepted | Rejected | CheckFailed

  /** How GitLab and the status endpoint would answer each call of one pass over one unit.
      `client` tells whether the access token resolves and a client can be built. */
  datatype Answers = Answers(
    client: bool,
    deleteByToken: Reply,
    deleteById: Reply,
    create: Reply,
    created: CreatedRunner,
    verify: Verdict,
    persist: Reply)

  datatype Call = DeleteByToken(token: string) | DeleteById(id: int) | Create | Verify(token: string)

  type Runners = map<int, string>

  /** GitLab's side of a call: `live` maps the id of each registered runner to the token that
      authenticates it. Deleting what is already gone succeeds. */
  function Effect(live: Runners, call: Call, a: Answers): Runners {
    match call
    case DeleteByToken(token) =>
      if a.deleteByToken.Applied() then map id | id in live && live[id] != token :: live[id] else live
    case DeleteById(id) =>
      if a.deleteById.Applied() then live - {id} else live
    case Create =>
      if a.create.Applied() then live[a.created.id := a.created.token] else live
    case Verify(_) => live
  }

  function Effects(live: Runners, calls: seq<Call>, a: Answers): Runners {
    if calls == [] then live
    else Effect(Effects(live, calls[..|calls| - 1], a), calls[|calls| - 1], a)
  }

  lemma EffectsSnoc(live: Runners, calls: seq<Call>, call: Call, a: Answers)
    ensures Effects(live, calls + [call], a) == Effect(Effects(live, calls, a), call, a)
  {
  }

  datatype Issued = Issued(token: string, expiresAt: Option<int>)

  /** One pass over one unit: the registration left in memory, the token it returned if it
      did not fail, the GitLab calls in order, and whether the immediate status write landed. */
  datatype UnitStep = UnitStep(reg: Registration, issued: Option<Issued>, calls: seq<Call>, stored: bool)

  function PersistedRunner(hash: string, a: Answers, calls: seq<Call>): UnitStep {
    UnitStep(
      Registration(a.created.id, hash, a.created.expiresAt),
      if a.persist.Done? then Some(Issued(a.created.token, a.created.expiresAt)) else None,
      calls,
      a.persist.Applied())
  }

  function CreateRunner(reg: Registration, hash: string, a: Answers, calls: seq<Call>): UnitStep {
    if a.create.Done? then PersistedRunner(hash, a, calls + [Create])
    else UnitStep(reg, None, calls + [Create], false)
  }

  function RecreateRunner(reg: Registration, oldToken: string, hash: string, a: Answers, calls: seq<Call>): UnitStep {
    if !a.client then
      UnitStep(reg, None, calls, false)
    else if oldToken != "" then
      var byToken := calls + [DeleteByToken(oldToken)];
      if a.deleteByToken.Done? then CreateRunner(reg, hash, a, byToken)
      else
        var byId := byToken + [DeleteById(reg.runnerId)];
        if a.deleteById.Done? then CreateRunner(reg, hash, a, byId) else UnitStep(reg, None, byId, false)
    else if reg.runnerId != 0 then
      CreateRunner(reg, hash, a, calls + [DeleteById(reg.runnerId)])
    else
      CreateRunner(reg, hash, a, calls)
  }

  predicate NearExpiry(expiresAt: Option<int>, now: int) {
    expiresAt.Some? && expiresAt.value - now < TOKEN_REFRESH_THRESHOLD
  }

  function EnsureRunner(reg: Registration, recovered: string, hash: string, now: int, a: Answers): UnitStep {
    if reg.runnerId == 0 then
      if a.client then CreateRunner(reg, hash, a, []) else UnitStep(reg, None, [], false)
    else if reg.hash != hash || NearExpiry(reg.expiresAt, now) then
      RecreateRunner(reg, recovered, hash, a, [])
    else if recovered == "" then
      RecreateRunner(reg, "", hash, a, [])
    else if !a.client then
      UnitStep(reg, None, [], false)
    else
      match a.verify
      case CheckFailed => UnitStep(reg, None, [Verify(recovered)], false)
      case Rejected => RecreateRunner(reg, recovered, hash, a, [Verify(recovered)])
      case Accepted => UnitStep(reg, Some(Issued(recovered, reg.expiresAt)), [Verify(recovered)], false)
  }

  /** Removing the runner for good: by its own token first, then by id with the access token,
      which `byIdClient` tells is usable. Yields the calls made and whether one succeeded. */
  function Deregister(runnerId: int, token: string, a: Answers, byIdClient: bool): (r: (seq<Call>, bool)) {
    if token != "" && !a.client then ([], false)
    else if token != "" && a.deleteByToken.Done? then ([DeleteByToken(token)], true)
    else
      var tried := if token != "" then [DeleteByToken(token)] else [];
      if byIdClient then (tried + [DeleteById(runnerId)], a.deleteById.Done?) else (tried, false)
  }

  // ----- what a successful pass means -----

  /** How a step that returned a token came by it. */
  lemma IssuedStep(reg: Registration, recovered: string, hash: string, now: int, a: Answers)
    requires EnsureRunner(reg, recovered, hash, now, a).issued.Some?
    ensures
      var step := EnsureRunner(reg, recovered, hash, now, a);
      || (step.calls != [] && step.calls[|step.calls| - 1] == Create && a.create.Done? && step.stored
          && step.reg == Registration(a.created.id, hash, a.created.expiresAt)
          && step.issued.value == Issued(a.created.token, a.created.expiresAt))
      || (step.calls == [] + [Verify(recovered)] && step.reg == reg && reg.runnerId != 0 && reg.hash == hash
          && !NearExpiry(reg.expiresAt, now) && a.verify.Accepted? && recovered != ""
          && step.issued.value == Issued(recovered, reg.expiresAt))
  {
  }

  /** The status carries the wanted options and the returned token is either the new runner's
      own or the recovered one, accepted and at least a day from expiry. */
  lemma {:induction false} IssuedTokenIsCurrent(reg: Registration, recovered: string, hash: string, now: int, a: Answers,
                                                live: Runners)
    requires a.created.id != 0 && a.created.token != ""
    requires EnsureRunner(reg, recovered, hash, now, a).issued.Some?
    ensures
      var step := EnsureRunner(reg, recovered, hash, now, a);
      && step.reg.runnerId != 0 && step.reg.hash == hash
      && step.issued.value.token != "" && step.issued.value.expiresAt == step.reg.expiresAt
      && (if Create in step.calls then
            step.stored && step.reg.runnerId in Effects(live, step.calls, a)
            && Effects(live, step.calls, a)[step.reg.runnerId] == step.issued.value.token
          else
            step.reg == reg && step.issued.value.token == recovered && !NearExpiry(reg.expiresAt, now)
            && a.verify.Accepted? && Effects(live, step.calls, a) == live)
  {
    IssuedStep(reg, recovered, hash, now, a);
    var calls := EnsureRunner(reg, recovered, hash, now, a).calls;
    if calls == [] + [Verify(recovered)] {
      EffectsSnoc(live, [], Verify(recovered), a);
    } else {
      assert calls == calls[..|calls| - 1] + [Create];
      EffectsSnoc(live, calls[..|calls| - 1], Create, a);
    }
  }

  /** A replacement is only created once the old runner's deletion was confirmed, or when the
      unit had no runner, or no token to delete it by. At most one runner is created, last. */
  lemma CreateOnlyAfterDelete(reg: Registration, recovered: string, hash: string, now: int, a: Answers)
    ensures
      var calls := EnsureRunner(reg, recovered, hash, now, a).calls;
      && (forall i | 0 <= i < |calls| :: calls[i] == Create ==> i == |calls| - 1)
      && (Create in calls ==>
            reg.runnerId == 0 || recovered == ""
            || (a.deleteByToken.Done? && DeleteByToken(recovered) in calls)
            || (a.deleteById.Done? && DeleteById(reg.runnerId) in calls))
  {
  }

  /** A registered unit whose options, token and expiry are in order only verifies its token. */
  lemma SteadyUnitIsLeftAlone(reg: Registration, recovered: string, hash: string, now: int, a: Answers)
    requires a.client && a.verify.Accepted?
    ensures
      (EnsureRunner(reg, recovered, hash, now, a) == UnitStep(reg, Some(Issued(recovered, reg.expiresAt)), [Verify(recovered)], false))
      <==> (reg.runnerId != 0 && reg.hash == hash && !NearExpiry(reg.expiresAt, now) && recovered != "")
  {
  }

  // ----- which calls are made, and why -----

  /** Why a registered unit gets a new runner: other options are wanted, the token is less than a day
      from expiry, not at hand, or rejected by GitLab. */
  predicate ToReplace(reg: Registration, recovered: string, hash: string, now: int, a: Answers) {
    reg.runnerId != 0 &&
    (reg.hash != hash || (reg.expiresAt.Some? && reg.expiresAt.value - now < 24 * 3600) || recovered == "" || a.verify.Rejected?)
  }

  /** Runners are deleted or created only for such a reason, or when the unit has none; and a token
      is checked only where the others do not hold. */
  lemma RunnersChangeForAReason(reg: Registration, recovered: string, hash: string, now: int, a: Answers)
    ensures
      var calls := EnsureRunner(reg, recovered, hash, now, a).calls;
      && (forall call | call in calls && !call.Verify? :: reg.runnerId == 0 || ToReplace(reg, recovered, hash, now, a))
      && (calls != [] ==> a.client)
      && (forall token :: Verify(token) in calls <==>
                          token == recovered && a.client && reg.runnerId != 0 && reg.hash == hash
                          && !NearExpiry(reg.expiresAt, now) && recovered != "")
  {
  }

  lemma {:induction false} ChecksChangeNothing(live: Runners, calls: seq<Call>, a: Answers)
    requires forall call | call in calls :: call.Verify?
    ensures Effects(live, calls, a) == live
    decreases |calls|
  {
    if calls != [] {
      assert calls[|calls| - 1] in calls;
      ChecksChangeNothing(live, calls[..|calls| - 1], a);
    }
  }

  /** A check that fails to give an answer leaves the unit as it is. */
  lemma FailedCheckChangesNothing(reg: Registration, recovered: string, hash: string, now: int, a: Answers, live: Runners)
    requires a.verify.CheckFailed? && Verify(recovered) in EnsureRunner(reg, recovered, hash, now, a).calls
    ensures
      var step := EnsureRunner(reg, recovered, hash, now, a);
      step.issued.None? && step.reg == reg && !step.stored && Effects(live, step.calls, a) == live
  {
    var step := EnsureRunner(reg, recovered, hash, now, a);
    RunnersChangeForAReason(reg, recovered, hash, now, a);
    ChecksChangeNothing(live, step.calls, a);
  }

  /** The order in which calls are made. */
  function Rank(call: Call): nat {
    match call
    case Verify(_) => 0
    case DeleteByToken(_) => 1
    case DeleteById(_) => 2
    case Create => 3
  }

  predicate InOrder(calls: seq<Call>) {
    forall i, j | 0 <= i < j < |calls| :: Rank(calls[i]) < Rank(calls[j])
  }

  /** The calls that replace a runner, after its token was checked or without a check. */
  ghost predicate Replaces(calls: seq<Call>, reg: Registration, token: string, a: Answers) {
    && InOrder(calls)
    && (forall t :: DeleteByToken(t) in calls <==> t == token && t != "")
    && (forall id :: DeleteById(id) in calls <==> id == reg.runnerId && (token == "" || !a.deleteByToken.Done?))
    && (Create in calls <==> token == "" || a.deleteByToken.Done? || a.deleteById.Done?)
  }

  /** Those calls, listed. */
  function ReplacingCalls(reg: Registration, token: string, a: Answers, checks: seq<Call>): seq<Call> {
    checks
    + (if token != "" then [DeleteByToken(token)] else [])
    + (if token == "" || !a.deleteByToken.Done? then [DeleteById(reg.runnerId)] else [])
    + (if token == "" || a.deleteByToken.Done? || a.deleteById.Done? then [Create] else [])
  }

  lemma ReplacingCallsAreInOrder(reg: Registration, token: string, a: Answers, checks: seq<Call>)
    requires checks == [] || checks == [Verify(token)]
    ensures InOrder(ReplacingCalls(reg, token, a, checks))
  {
  }

  lemma ReplacingCallsReplace(reg: Registration, token: string, a: Answers, checks: seq<Call>)
    requires checks == [] || checks == [Verify(token)]
    ensures Replaces(ReplacingCalls(reg, token, a, checks), reg, token, a)
  {
    hide InOrder;
    ReplacingCallsAreInOrder(reg, token, a, checks);
  }

  lemma RecreateReplaces(reg: Registration, token: string, hash: string, a: Answers, checks: seq<Call>)
    requires a.client && reg.runnerId != 0 && (checks == [] || checks == [Verify(token)])
    ensures Replaces(RecreateRunner(reg, token, hash, a, checks).calls, reg, token, a)
  {
    hide Replaces;
    ReplacingCallsReplace(reg, token, a, checks);
    assert RecreateRunner(reg, token, hash, a, checks).calls == ReplacingCalls(reg, token, a, checks);
  }

  /** How a runner is replaced: it is deleted by its token if that is at hand, by id if it is not
      or if that failed, and the new one is created unless both ways failed. */
  lemma ReplacementCalls(reg: Registration, recovered: string, hash: string, now: int, a: Answers)
    requires a.client && ToReplace(reg, recovered, hash, now, a)
    ensures Replaces(EnsureRunner(reg, recovered, hash, now, a).calls, reg, recovered, a)
  {
    hide Replaces, RecreateRunner;
    RecreateReplaces(reg, recovered, hash, a, []);
    RecreateReplaces(reg, recovered, hash, a, [Verify(recovered)]);
  }

  /** A unit without a runner gets one, by that call alone. */
  lemma UnregisteredUnitIsCreated(reg: Registration, recovered: string, hash: string, now: int, a: Answers)
    requires reg.runnerId == 0
    ensures EnsureRunner(reg, recovered, hash, now, a).calls == if a.client then [Create] else []
  {
  }

  /** When a step succeeds, and when its registration was stored at once. */
  lemma IssuedIff(reg: Registration, recovered: string, hash: string, now: int, a: Answers)
    ensures
      var step := EnsureRunner(reg, recovered, hash, now, a);
      && (step.issued.Some? <==> (Create in step.calls && a.create.Done? && a.persist.Done?)
                                 || (Verify(recovered) in step.calls && a.verify.Accepted?))
      && (step.stored <==> Create in step.calls && a.create.Done? && a.persist.Applied())
  {
  }

  /** A removal by token falls back to the id, whether the token is not at hand or GitLab refused
      it, and succeeds iff one of the two ways does. */
  lemma RemovalFallsBack(runnerId: int, token: string, a: Answers, byIdClient: bool)
    ensures
      var (calls, ok) := Deregister(runnerId, token, a, byIdClient);
      && InOrder(calls) && (forall call | call in calls :: call.DeleteByToken? || call.DeleteById?)
      && (forall t :: DeleteByToken(t) in calls <==> t == token && token != "" && a.client)
      && (forall id :: DeleteById(id) in calls <==>
                       id == runnerId && byIdClient && (token == "" || (a.client && !a.deleteByToken.Done?)))
      && (ok <==> (token != "" ==> a.client) && ((token != "" && a.deleteByToken.Done?) || (byIdClient && a.deleteById.Done?)))
  {
  }
}
