/** Authenticating every runner unit of an object, in order. */
module EnsureRunners {
  import opened Common
  import opened ManagedRunner
  import opened RunnerObject
  import opened TokenRefresh
  import opened ConfigSecret

  /** GitLab as the operator's client sees it. */
  class GitlabClient {
    var live: Runners
    ghost var calls: seq<Call>

    constructor (live: Runners)
      ensures this.live == live && calls == []
    {
      this.live := live;
      calls := [];
    }

    method CreateRunner(a: Answers) returns (created: Option<CreatedRunner>)
      modifies this
      ensures live == Effect(old(live), Create, a) && calls == old(calls) + [Create]
      ensures created == if a.create.Done? then Some(a.created) else None
    {
      live := Effect(live, Create, a);
      calls := calls + [Create];
      created := if a.create.Done? then Some(a.created) else None;
    }

    method DeleteRunner(token: string, a: Answers) returns (ok: bool)
      modifies this
      ensures live == Effect(old(live), DeleteByToken(token), a) && calls == old(calls) + [DeleteByToken(token)]
      ensures ok <==> a.deleteByToken.Done?
    {
      live := Effect(live, DeleteByToken(token), a);
      calls := calls + [DeleteByToken(token)];
      ok := a.deleteByToken.Done?;
    }

    method DeleteRunnerByID(id: int, a: Answers) returns (ok: bool)
      modifies this
      ensures live == Effect(old(live), DeleteById(id), a) && calls == old(calls) + [DeleteById(id)]
      ensures ok <==> a.deleteById.Done?
    {
      live := Effect(live, DeleteById(id), a);
      calls := calls + [DeleteById(id)];
      ok := a.deleteById.Done?;
    }

    method VerifyToken(token: string, a: Answers) returns (v: Verdict)
      modifies this
      ensures live == old(live) && calls == old(calls) + [Verify(token)] && v == a.verify
    {
      calls := calls + [Verify(token)];
      v := a.verify;
    }
  }

  /** The step got as far as recording a new runner in memory. */
  predicate Recorded(step: UnitStep, a: Answers) {
    Create in step.calls && a.create.Done?
  }

  /** The registrations in memory after the step. */
  function Record(rs: Registrations, name: string, step: UnitStep, a: Answers): Registrations {
    if Recorded(step, a) then Store(rs, name, step.reg) else rs
  }

  /** A unit's registration as the calls of one pass leave it, `live0` and `calls0` being
      GitLab's state when the pass turned to the unit. */
  ghost predicate Performed(gitlab: GitlabClient, live0: Runners, calls0: seq<Call>, calls: seq<Call>, a: Answers)
    reads gitlab
  {
    gitlab.live == Effects(live0, calls, a) && gitlab.calls == calls0 + calls
  }

  /** The in-memory and the stored status after the step. */
  ghost predicate Tracked(status: Status, stored: Status, status0: Status, stored0: Status, name: string, step: UnitStep,
                          a: Answers) {
    && status == status0.(registrations := Record(status0.registrations, name, step, a))
    && stored == (if step.stored then status else stored0)
  }

  /** Records the new runner in memory and writes the status at once. */
  method PersistRunner(stored: StoredObject, obj: RunnerObject, name: string, created: CreatedRunner, hash: string, a: Answers)
    returns (issued: Option<Issued>)
    requires created == a.created
    modifies stored`status, obj`status
    ensures obj.status == old(obj.status).(registrations :=
                            Store(old(obj.status).registrations, name, Registration(created.id, hash, created.expiresAt)))
    ensures stored.status == if a.persist.Applied() then obj.status else old(stored.status)
    ensures issued == if a.persist.Done? then Some(Issued(created.token, created.expiresAt)) else None
  {
    obj.StoreRunnerRegistration(name, Registration(created.id, hash, created.expiresAt));
    if a.persist.Applied() {
      stored.status := obj.status;
    }
    issued := if a.persist.Done? then Some(Issued(created.token, created.expiresAt)) else None;
  }

  /** Creates the runner and persists it, `done` being the calls made for the unit before. */
  method CreateAndPersist(gitlab: GitlabClient, stored: StoredObject, obj: RunnerObject, reg: Registration, name: string,
                          hash: string, a: Answers, ghost live0: Runners, ghost calls0: seq<Call>, ghost done: seq<Call>)
    returns (issued: Option<Issued>)
    requires Performed(gitlab, live0, calls0, done, a) && Create !in done
    modifies gitlab, stored`status, obj`status
    ensures var step := ManagedRunner.CreateRunner(reg, hash, a, done);
            && Performed(gitlab, live0, calls0, step.calls, a)
            && Tracked(obj.status, stored.status, old(obj.status), old(stored.status), name, step, a)
            && issued == step.issued
  {
    EffectsSnoc(live0, done, Create, a);
    var created := gitlab.CreateRunner(a);
    if created.None? {
      return None;
    }
    issued := PersistRunner(stored, obj, name, created.value, hash, a);
  }

  /** Deletes the old runner, by token and failing that by id, before creating the new one. */
  method RecreateManagedRunner(gitlab: GitlabClient, stored: StoredObject, obj: RunnerObject, reg: Registration, name: string,
                               oldToken: string, hash: string, a: Answers,
                               ghost live0: Runners, ghost calls0: seq<Call>, ghost done: seq<Call>)
    returns (issued: Option<Issued>)
    requires Performed(gitlab, live0, calls0, done, a) && Create !in done
    modifies gitlab, stored`status, obj`status
    ensures var step := RecreateRunner(reg, oldToken, hash, a, done);
            && Performed(gitlab, live0, calls0, step.calls, a)
            && Tracked(obj.status, stored.status, old(obj.status), old(stored.status), name, step, a)
            && issued == step.issued
  {
    if !a.client {
      return None;
    }
    ghost var made := done;
    if oldToken != "" {
      EffectsSnoc(live0, made, DeleteByToken(oldToken), a);
      made := made + [DeleteByToken(oldToken)];
      var ok := gitlab.DeleteRunner(oldToken, a);
      if !ok {
        EffectsSnoc(live0, made, DeleteById(reg.runnerId), a);
        made := made + [DeleteById(reg.runnerId)];
        ok := gitlab.DeleteRunnerByID(reg.runnerId, a);
        if !ok {
          return None;
        }
      }
    } else if reg.runnerId != 0 {
      EffectsSnoc(live0, made, DeleteById(reg.runnerId), a);
      made := made + [DeleteById(reg.runnerId)];
      var _ := gitlab.DeleteRunnerByID(reg.runnerId, a);
    }
    issued := CreateAndPersist(gitlab, stored, obj, reg, name, hash, a, live0, calls0, made);
  }

  /** One managed unit against GitLab: exactly the step `ManagedRunner.EnsureRunner` describes. */
  method EnsureManagedRunner(gitlab: GitlabClient, stored: StoredObject, obj: RunnerObject, info: RegInfo,
                             recovered: string, now: int, a: Answers) returns (issued: Option<Issued>)
    requires info.createOptions.Some?
    modifies gitlab, stored`status, obj`status
    ensures var step := EnsureRunner(info.reg, recovered, info.createOptions.value, now, a);
            && Performed(gitlab, old(gitlab.live), old(gitlab.calls), step.calls, a)
            && Tracked(obj.status, stored.status, old(obj.status), old(stored.status), info.name, step, a)
            && issued == step.issued
  {
    var hash := info.createOptions.value;
    ghost var live0, calls0 := gitlab.live, gitlab.calls;
    assert Performed(gitlab, live0, calls0, [], a);
    if info.reg.runnerId == 0 {
      if !a.client {
        return None;
      }
      issued := CreateAndPersist(gitlab, stored, obj, info.reg, info.name, hash, a, live0, calls0, []);
    } else if info.reg.hash != hash {
      issued := RecreateManagedRunner(gitlab, stored, obj, info.reg, info.name, recovered, hash, a, live0, calls0, []);
    } else if info.reg.expiresAt.Some? && info.reg.expiresAt.value - now < TOKEN_REFRESH_THRESHOLD {
      issued := RecreateManagedRunner(gitlab, stored, obj, info.reg, info.name, recovered, hash, a, live0, calls0, []);
    } else if recovered == "" {
      issued := RecreateManagedRunner(gitlab, stored, obj, info.reg, info.name, "", hash, a, live0, calls0, []);
    } else {
      if !a.client {
        return None;
      }
      EffectsSnoc(live0, [], Verify(recovered), a);
      assert [] + [Verify(recovered)] == [Verify(recovered)];
      var v := gitlab.VerifyToken(recovered, a);
      match v
      case CheckFailed => issued := None;
      case Rejected =>
        issued := RecreateManagedRunner(gitlab, stored, obj, info.reg, info.name, recovered, hash, a, live0, calls0, [Verify(recovered)]);
      case Accepted => issued := Some(Issued(recovered, info.reg.expiresAt));
    }
  }

  // ----- all units -----

  /** The world's part in one unit's turn: what a provided-token source resolves to (None is
      an error), the time, and GitLab's answers. */
  datatype UnitInput = UnitInput(provided: Option<string>, now: int, answers: Answers)

  type Inputs = string -> UnitInput

  /** The turn of a managed unit, from the registration the pass started with. */
  function StepOf(e: Entry, rs: Registrations, recovered: map<string, string>, inputs: Inputs): UnitStep
    requires e.createOptions.Some?
  {
    EnsureRunner(
      Lookup(rs, e.name), if e.name in recovered then recovered[e.name] else "",
      e.createOptions.value, inputs(e.name).now, inputs(e.name).answers)
  }

  /** The token and expiry a unit's turn yields, if it does not fail. */
  function TurnOf(e: Entry, rs: Registrations, recovered: map<string, string>, inputs: Inputs): Option<Issued> {
    if e.createOptions.Some? then StepOf(e, rs, recovered, inputs).issued
    else
      match inputs(e.name).provided
      case Some(token) => if token != "" then Some(Issued(token, None)) else None
      case None => None
  }

  /** The registrations in memory after the turns of `entries`, each taken from `rs`. */
  function RecordAll(entries: seq<Entry>, rs: Registrations, recovered: map<string, string>, inputs: Inputs): Registrations {
    if entries == [] then rs
    else
      var n := |entries| - 1;
      var before, e := RecordAll(entries[..n], rs, recovered, inputs), entries[n];
      if e.createOptions.None? then before
      else Record(before, e.name, StepOf(e, rs, recovered, inputs), inputs(e.name).answers)
  }

  function LiveAfter(entries: seq<Entry>, live: Runners, rs: Registrations, recovered: map<string, string>,
                     inputs: Inputs): Runners {
    if entries == [] then live
    else
      var n := |entries| - 1;
      var before, e := LiveAfter(entries[..n], live, rs, recovered, inputs), entries[n];
      if e.createOptions.None? then before else Effects(before, StepOf(e, rs, recovered, inputs).calls, inputs(e.name).answers)
  }

  lemma {:induction false} RecordKeepsForm(entries: seq<Entry>, rs: Registrations, recovered: map<string, string>,
                                           inputs: Inputs)
    ensures RecordAll(entries, rs, recovered, inputs).One? <==> rs.One?
    decreases |entries|
  {
    if entries != [] {
      RecordKeepsForm(entries[..|entries| - 1], rs, recovered, inputs);
    }
  }

  /** Entries that are not `name`, and unmanaged ones, leave its registration alone. */
  lemma {:induction false} OthersKeepTheirRegistration(entries: seq<Entry>, rs: Registrations, recovered: map<string, string>,
                                                       inputs: Inputs, name: string)
    requires rs.PerEntry? || forall i | 0 <= i < |entries| :: entries[i].createOptions.None?
    requires forall i | 0 <= i < |entries| && entries[i].name == name :: entries[i].createOptions.None?
    ensures Lookup(RecordAll(entries, rs, recovered, inputs), name) == Lookup(rs, name)
    decreases |entries|
  {
    if entries != [] {
      var n := |entries| - 1;
      var init, e := entries[..n], entries[n];
      OthersKeepTheirRegistration(init, rs, recovered, inputs, name);
      RecordKeepsForm(init, rs, recovered, inputs);
      if e.createOptions.Some? {
        StoreThenLookup(RecordAll(init, rs, recovered, inputs), e.name, StepOf(e, rs, recovered, inputs).reg, name);
      }
    }
  }

  /** The units take their turns independently: each managed entry whose turn came ends with
      what a single unit, started from that entry's registration alone, ends with. */
  lemma {:induction false} TurnsAreIndependent(entries: seq<Entry>, rs: Registrations, recovered: map<string, string>,
                                               inputs: Inputs, i: nat)
    requires UniqueNames(entries) && (rs.One? ==> |entries| <= 1)
    requires i < |entries| && entries[i].createOptions.Some?
    ensures Lookup(RecordAll(entries, rs, recovered, inputs), entries[i].name) == StepOf(entries[i], rs, recovered, inputs).reg
    decreases |entries|
  {
    var n := |entries| - 1;
    var init, last := entries[..n], entries[n];
    var before := RecordAll(init, rs, recovered, inputs);
    RecordKeepsForm(init, rs, recovered, inputs);
    if last.createOptions.Some? {
      LastTurn(before, last, rs, recovered, inputs, entries[i].name);
    }
    if i < n {
      TurnsAreIndependent(init, rs, recovered, inputs, i);
    } else if rs.PerEntry? {
      OthersKeepTheirRegistration(init, rs, recovered, inputs, last.name);
    }
  }

  lemma LastTurn(before: Registrations, last: Entry, rs: Registrations, recovered: map<string, string>, inputs: Inputs,
                 name: string)
    requires last.createOptions.Some? && (before.One? <==> rs.One?)
    ensures
      var after := Record(before, last.name, StepOf(last, rs, recovered, inputs), inputs(last.name).answers);
      && (name != last.name && rs.PerEntry? ==> Lookup(after, name) == Lookup(before, name))
      && (name == last.name && Lookup(before, name) == Lookup(rs, name) ==>
            Lookup(after, name) == StepOf(last, rs, recovered, inputs).reg)
  {
    var step, a := StepOf(last, rs, recovered, inputs), inputs(last.name).answers;
    UnrecordedKeepsReg(Lookup(rs, last.name), if last.name in recovered then recovered[last.name] else "",
                       last.createOptions.value, inputs(last.name).now, a);
    StoreThenLookup(before, last.name, step.reg, name);
  }

  lemma UnrecordedKeepsReg(reg: Registration, recovered: string, hash: string, now: int, a: Answers)
    ensures var step := EnsureRunner(reg, recovered, hash, now, a);
            && (!Recorded(step, a) ==> step.reg == reg)
            && (Recorded(step, a) ==> step.reg == Registration(a.created.id, hash, a.created.expiresAt))
  {
  }

  /** The status the API server holds after the turns of `entries`: whatever the last
      immediate write that landed carried. */
  function StoredAll(entries: seq<Entry>, stored0: Status, status0: Status, recovered: map<string, string>,
                     inputs: Inputs): Status {
    if entries == [] then stored0
    else
      var n, rs := |entries| - 1, status0.registrations;
      if entries[n].createOptions.Some? && StepOf(entries[n], rs, recovered, inputs).stored then
        status0.(registrations := RecordAll(entries, rs, recovered, inputs))
      else StoredAll(entries[..n], stored0, status0, recovered, inputs)
  }

  /** `soonest` is the least expiry the turns of `entries` yielded, if any did. */
  ghost predicate SoonestOf(entries: seq<Entry>, rs: Registrations, recovered: map<string, string>, inputs: Inputs,
                            soonest: Option<int>) {
    && (forall e | e in entries && TurnOf(e, rs, recovered, inputs).Some? && TurnOf(e, rs, recovered, inputs).value.expiresAt.Some? ::
          soonest.Some? && soonest.value <= TurnOf(e, rs, recovered, inputs).value.expiresAt.value)
    && (soonest.Some? ==> exists e :: e in entries && TurnOf(e, rs, recovered, inputs).Some?
                                      && TurnOf(e, rs, recovered, inputs).value.expiresAt == soonest)
  }

  /** The tokens map holds the token of each turn so far, under the entry's name, and no more. */
  ghost predicate TokensOf(entries: seq<Entry>, rs: Registrations, recovered: map<string, string>, inputs: Inputs,
                           tokens: map<string, string>) {
    && (forall name :: name in tokens <==> exists i :: 0 <= i < |entries| && entries[i].name == name)
    && (forall i | 0 <= i < |entries| ::
          && TurnOf(entries[i], rs, recovered, inputs).Some?
          && tokens[entries[i].name] == TurnOf(entries[i], rs, recovered, inputs).value.token)
  }

  /** Everything the turns of `entries` change. */
  ghost predicate TurnsTaken(gitlab: GitlabClient, stored: StoredObject, obj: RunnerObject, live0: Runners, stored0: Status,
                             status0: Status, entries: seq<Entry>, recovered: map<string, string>, inputs: Inputs)
    reads gitlab, stored, obj
  {
    && gitlab.live == LiveAfter(entries, live0, status0.registrations, recovered, inputs)
    && obj.status == status0.(registrations := RecordAll(entries, status0.registrations, recovered, inputs))
    && stored.status == StoredAll(entries, stored0, status0, recovered, inputs)
  }

  /** One unit's turn. */
  method TakeTurn(gitlab: GitlabClient, stored: StoredObject, obj: RunnerObject, info: RegInfo, recovered: map<string, string>,
                  inputs: Inputs, ghost e: Entry, ghost done: seq<Entry>, ghost live0: Runners, ghost stored0: Status, ghost status0: Status)
    returns (issued: Option<Issued>)
    requires info == RegInfo(e.name, e.createOptions, Lookup(status0.registrations, e.name))
    requires TurnsTaken(gitlab, stored, obj, live0, stored0, status0, done, recovered, inputs)
    modifies gitlab, stored`status, obj`status
    ensures TurnsTaken(gitlab, stored, obj, live0, stored0, status0, done + [e], recovered, inputs)
    ensures issued == TurnOf(e, status0.registrations, recovered, inputs)
  {
    assert (done + [e])[..|done|] == done;
    var input := inputs(info.name);
    if info.createOptions.None? {
      if input.provided.None? || input.provided.value == "" {
        return None;
      }
      return Some(Issued(input.provided.value, None));
    }
    var recoveredToken := if info.name in recovered then recovered[info.name] else "";
    issued := EnsureManagedRunner(gitlab, stored, obj, info, recoveredToken, input.now, input.answers);
  }

  /** What the turns amount to: the tokens and the time of the next look if all succeeded, and
      otherwise nothing, the last of the `turns` being the one that failed. */
  ghost predicate TurnsGive(entries: seq<Entry>, rs: Registrations, recovered: map<string, string>, inputs: Inputs, clock: int,
                            r: Option<(map<string, string>, int)>, turns: nat, soonest: Option<int>) {
    && turns <= |entries|
    && (r.Some? ==> turns == |entries| && TokensOf(entries, rs, recovered, inputs, r.value.0)
                    && SoonestOf(entries, rs, recovered, inputs, soonest) && r.value.1 == ResyncAfter(soonest, clock))
    && (r.None? && turns > 0 ==> TurnOf(entries[turns - 1], rs, recovered, inputs).None?)
    && (forall i | 0 <= i < turns - 1 :: TurnOf(entries[i], rs, recovered, inputs).Some?)
  }

  /** Takes the units' turns in order and stops at the first failure: `turns` of them were
      taken, all successful if the pass goes on, all but the last if it does not. */
  method EnsureRunners(gitlab: GitlabClient, stored: StoredObject, obj: RunnerObject, secret: SecretStore,
                       inputs: Inputs, clock: int)
    returns (r: Option<(map<string, string>, int)>, ghost turns: nat, ghost recovered: map<string, string>, ghost soonest: Option<int>)
    requires obj.WellFormed()
    modifies gitlab, stored`status, obj`status, secret.api
    ensures secret.api.faults >= old(secret.api.faults)
    ensures secret.api.faults == old(secret.api.faults) ==> AreTokensOf(recovered, secret.data.GetOr(map[]))
    ensures secret.api.faults != old(secret.api.faults) <==> r.None? && turns == 0
    ensures TurnsGive(obj.entries, old(obj.status).registrations, recovered, inputs, clock, r, turns, soonest)
    ensures TurnsTaken(gitlab, stored, obj, old(gitlab.live), old(stored.status), old(obj.status), obj.entries[..turns], recovered, inputs)
  {
    turns, recovered, soonest := 0, map[], None;
    ghost var live0, stored0, status0 := gitlab.live, stored.status, obj.status;
    ghost var rs := status0.registrations;
    var existing := secret.ExistingConfigTokens();
    if existing.None? {
      return None, turns, recovered, soonest;
    }
    recovered := existing.value;
    var regs := obj.RegistrationConfig();
    var tokens: map<string, string> := map[];
    var least: Option<int> := None;
    for i := 0 to |regs|
      invariant secret.api.faults == old(secret.api.faults) && recovered == existing.value && soonest == None
      invariant TurnsTaken(gitlab, stored, obj, live0, stored0, status0, obj.entries[..i], recovered, inputs)
      invariant TokensOf(obj.entries[..i], rs, recovered, inputs, tokens)
      invariant SoonestOf(obj.entries[..i], rs, recovered, inputs, least)
      invariant turns == i
    {
      ghost var e, done := obj.entries[i], obj.entries[..i];
      TakeOneMore(obj.entries, i);
      var issued := TakeTurn(gitlab, stored, obj, regs[i], existing.value, inputs, e, done, live0, stored0, status0);
      turns := i + 1;
      if issued.None? {
        TurnFails(obj.entries, i, rs, recovered, inputs, tokens, clock);
        return None, turns, recovered, soonest;
      }
      AnotherTurn(obj.entries, i, rs, recovered, inputs, tokens, least);
      tokens := tokens[regs[i].name := issued.value.token];
      least := Sooner(least, issued.value.expiresAt);
    }
    assert obj.entries[..|regs|] == obj.entries;
    TurnsEnd(obj.entries, rs, recovered, inputs, tokens, least, clock);
    soonest := least;
    r := Some((tokens, ResyncAfter(least, clock)));
  }

  lemma TakeOneMore(entries: seq<Entry>, i: nat)
    requires i < |entries|
    ensures entries[..i + 1] == entries[..i] + [entries[i]]
  {
  }

  lemma TurnFails(entries: seq<Entry>, i: nat, rs: Registrations, recovered: map<string, string>, inputs: Inputs,
                  tokens: map<string, string>, clock: int)
    requires i < |entries| && TokensOf(entries[..i], rs, recovered, inputs, tokens) && TurnOf(entries[i], rs, recovered, inputs).None?
    ensures TurnsGive(entries, rs, recovered, inputs, clock, None, i + 1, None)
  {
  }

  lemma TurnsEnd(entries: seq<Entry>, rs: Registrations, recovered: map<string, string>, inputs: Inputs,
                 tokens: map<string, string>,
                 least: Option<int>, clock: int)
    requires TokensOf(entries, rs, recovered, inputs, tokens) && SoonestOf(entries, rs, recovered, inputs, least)
    ensures TurnsGive(entries, rs, recovered, inputs, clock, Some((tokens, ResyncAfter(least, clock))), |entries|, least)
  {
  }

  lemma AnotherTurn(entries: seq<Entry>, i: nat, rs: Registrations, recovered: map<string, string>, inputs: Inputs,
                    tokens: map<string, string>, least: Option<int>)
    requires i < |entries| && UniqueNames(entries) && TurnOf(entries[i], rs, recovered, inputs).Some?
    requires TokensOf(entries[..i], rs, recovered, inputs, tokens) && SoonestOf(entries[..i], rs, recovered, inputs, least)
    ensures TokensOf(entries[..i + 1], rs, recovered, inputs, tokens[entries[i].name := TurnOf(entries[i], rs, recovered, inputs).value.token])
    ensures SoonestOf(entries[..i + 1], rs, recovered, inputs, Sooner(least, TurnOf(entries[i], rs, recovered, inputs).value.expiresAt))
  {
    TakeOneMore(entries, i);
    AnotherToken(entries[..i], entries[i], rs, recovered, inputs, tokens);
    AnotherExpiry(entries[..i], entries[i], rs, recovered, inputs, least);
  }

  function Sooner(least: Option<int>, expiry: Option<int>): Option<int> {
    if expiry.Some? && (least.None? || expiry.value < least.value) then expiry else least
  }

  lemma AnotherToken(done: seq<Entry>, e: Entry, rs: Registrations, recovered: map<string, string>, inputs: Inputs,
                     tokens: map<string, string>)
    requires UniqueNames(done + [e]) && TurnOf(e, rs, recovered, inputs).Some?
    requires TokensOf(done, rs, recovered, inputs, tokens)
    ensures TokensOf(done + [e], rs, recovered, inputs, tokens[e.name := TurnOf(e, rs, recovered, inputs).value.token])
  {
    var all := done + [e];
    assert all[|done|] == e;
    forall i | 0 <= i < |done|
      ensures all[i] == done[i] && done[i].name != e.name
    {
      assert all[i].name != all[|done|].name;
    }
  }

  lemma AnotherExpiry(done: seq<Entry>, e: Entry, rs: Registrations, recovered: map<string, string>, inputs: Inputs,
                      least: Option<int>)
    requires TurnOf(e, rs, recovered, inputs).Some?
    requires SoonestOf(done, rs, recovered, inputs, least)
    ensures SoonestOf(done + [e], rs, recovered, inputs, Sooner(least, TurnOf(e, rs, recovered, inputs).value.expiresAt))
  {
  }
}
