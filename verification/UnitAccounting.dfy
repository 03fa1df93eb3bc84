/** How one pass over an object with any number of units looks to each managed unit: the
    accounting of orphans holds for each of them, since all the others can do to its runners is
    remove some. */
module UnitAccounting {
  import opened Common
  import opened ManagedRunner
  import opened RunnerObject
  import opened EnsureRunners
  import opened ConfigSecret
  import opened GenerateConfig
  import OA = OrphanAccounting

  /** What the three stores hold: GitLab, the stored status and the config Secret. */
  datatype ObjectState = ObjectState(live: Runners, registrations: Registrations, secret: Option<Data>)

  /** The runners among `ids`, those created for one unit. */
  function Mine(live: Runners, ids: set<int>): Runners {
    map id | id in live && id in ids :: live[id]
  }

  function UnitWorld(s: ObjectState, ids: set<int>, name: string): OA.World {
    OA.World(Mine(s.live, ids), Lookup(s.registrations, name), TokenFor(TokensIn(s.secret), name))
  }

  function CreatedId(e: Entry, inputs: Inputs): int {
    inputs(e.name).answers.created.id
  }

  /** GitLab hands out nonzero ids that are not in use, a different one to each managed unit,
      and nonempty tokens. */
  predicate FreshIds(entries: seq<Entry>, inputs: Inputs, live: Runners) {
    && (forall i | 0 <= i < |entries| && entries[i].createOptions.Some? ::
          && CreatedId(entries[i], inputs) != 0 && CreatedId(entries[i], inputs) !in live
          && inputs(entries[i].name).answers.created.token != "")
    && (forall i, j | 0 <= i < j < |entries| && entries[i].createOptions.Some? && entries[j].createOptions.Some? ::
          CreatedId(entries[i], inputs) != CreatedId(entries[j], inputs))
  }

  /** Where `name` is managed in the spec, if it is. */
  function ManagedAt(entries: seq<Entry>, name: string): (r: Option<nat>)
    ensures r.Some? ==> r.value < |entries| && entries[r.value].name == name && entries[r.value].createOptions.Some?
    ensures r.None? ==> forall i | 0 <= i < |entries| && entries[i].name == name :: entries[i].createOptions.None?
  {
    if entries == [] then None
    else
      var n := |entries| - 1;
      if entries[n].name == name && entries[n].createOptions.Some? then Some(n) else ManagedAt(entries[..n], name)
  }

  /** The Secret was rendered with these tokens. */
  ghost predicate HoldsTokens(data: Option<Data>, tokens: Data) {
    data.Some? && exists text, ca :: IsRendered(data.value, text, tokens, ca)
  }

  /** The unit's own pass, read off what the stores hold before and after: the Secret was
      written if it now holds the token the unit was issued, the status if it now holds the
      registration the unit ended with. */
  function PassOf(e: Entry, inputs: Inputs, before: ObjectState, after: ObjectState): OA.Pass
    requires e.createOptions.Some?
  {
    var step := StepOf(e, before.registrations, TokensIn(before.secret), inputs);
    OA.Pass(
      e.createOptions.value, inputs(e.name).now, inputs(e.name).answers,
      step.issued.Some? && TokenFor(TokensIn(after.secret), e.name) == step.issued.value.token,
      Lookup(after.registrations, e.name) == step.reg)
  }

  /** What the unit `name` sees of a pass in which the first `turns` entries took their turn. A
      managed unit sees its own pass, if its turn came, between removals by the other units;
      for a unit left out of the spec or switched to a provided token the Secret is rendered
      without its runner's token. */
  function EventsOf(entries: seq<Entry>, inputs: Inputs, turns: nat, name: string, before: ObjectState, after: ObjectState,
                    a: set<int>, b: set<int>): seq<OA.Event>
  {
    match ManagedAt(entries, name)
    case Some(k) =>
      if k < turns then [OA.RunnersRemoved(a), OA.Reconciled(PassOf(entries[k], inputs, before, after)), OA.RunnersRemoved(b)]
      else [OA.RunnersRemoved(a)]
    case None => [OA.RunnersRemoved(a), OA.Unmanaged(TokenFor(TokensIn(after.secret), name))]
  }

  /** The ids ever created for the unit, after the pass. */
  function IdsAfter(entries: seq<Entry>, inputs: Inputs, name: string, ids: set<int>): set<int> {
    match ManagedAt(entries, name)
    case Some(k) => ids + {CreatedId(entries[k], inputs)}
    case None => ids
  }

  predicate Accounts(entries: seq<Entry>, inputs: Inputs, turns: nat, name: string, ids: set<int>, before: ObjectState,
                     after: ObjectState, a: set<int>, b: set<int>)
  {
    var w, events := UnitWorld(before, ids, name), EventsOf(entries, inputs, turns, name, before, after, a, b);
    OA.FreshRunners(w, events) && UnitWorld(after, IdsAfter(entries, inputs, name, ids), name) == OA.Run(w, events)
  }

  ghost predicate UnitAccounted(entries: seq<Entry>, inputs: Inputs, turns: nat, name: string, ids: set<int>,
                                before: ObjectState,
                                after: ObjectState)
  {
    exists a, b :: Accounts(entries, inputs, turns, name, ids, before, after, a, b)
  }

  /** A Runner has the one unit its status speaks of. */
  predicate Fits(entries: seq<Entry>, rs: Registrations, name: string) {
    rs.One? ==> forall i | 0 <= i < |entries| :: entries[i].name == name
  }

  /** Each unit, in the spec or not, whichever live runners are its own, goes through a run of
      the accounting. */
  ghost predicate Accounted(entries: seq<Entry>, inputs: Inputs, turns: nat, before: ObjectState, after: ObjectState) {
    FreshIds(entries, inputs, before.live) ==>
      forall name, ids | ids <= before.live.Keys && Fits(entries, before.registrations, name) ::
        UnitAccounted(entries, inputs, turns, name, ids, before, after)
  }

  // ----- GitLab: the turns of other units only remove -----

  predicate SubMap(small: Runners, big: Runners) {
    small.Keys <= big.Keys && forall id | id in small :: small[id] == big[id]
  }

  lemma SubMapIsRemoval(small: Runners, big: Runners)
    requires SubMap(small, big)
    ensures small == big - (big.Keys - small.Keys)
  {
    var rest := big - (big.Keys - small.Keys);
    assert forall id :: id in rest <==> id in small;
    assert forall id | id in small :: rest[id] == small[id];
    assert rest == small;
  }

  /** A call that creates no runner of the unit only removes. */
  lemma OtherCall(live: Runners, call: Call, a: Answers, ids: set<int>)
    requires a.created.id !in ids
    ensures SubMap(Mine(Effect(live, call, a), ids), Mine(live, ids))
  {
  }

  lemma {:induction false} OtherCalls(live: Runners, calls: seq<Call>, a: Answers, ids: set<int>)
    requires a.created.id !in ids
    ensures SubMap(Mine(Effects(live, calls, a), ids), Mine(live, ids))
    decreases |calls|
  {
    if calls != [] {
      var n := |calls| - 1;
      OtherCalls(live, calls[..n], a, ids);
      OtherCall(Effects(live, calls[..n], a), calls[n], a, ids);
    }
  }

  /** The unit's own calls do to its runners what they would do to them alone. */
  lemma OwnCall(live: Runners, call: Call, a: Answers, ids: set<int>)
    requires a.created.id in ids
    ensures Mine(Effect(live, call, a), ids) == Effect(Mine(live, ids), call, a)
  {
  }

  lemma {:induction false} OwnCalls(live: Runners, calls: seq<Call>, a: Answers, ids: set<int>)
    requires a.created.id in ids
    ensures Mine(Effects(live, calls, a), ids) == Effects(Mine(live, ids), calls, a)
    decreases |calls|
  {
    if calls != [] {
      var n := |calls| - 1;
      OwnCalls(live, calls[..n], a, ids);
      OwnCall(Effects(live, calls[..n], a), calls[n], a, ids);
    }
  }

  lemma {:induction false} OtherTurns(entries: seq<Entry>, live: Runners, rs: Registrations, recovered: Data,
                                      inputs: Inputs, ids: set<int>)
    requires forall i | 0 <= i < |entries| && entries[i].createOptions.Some? :: CreatedId(entries[i], inputs) !in ids
    ensures SubMap(Mine(LiveAfter(entries, live, rs, recovered, inputs), ids), Mine(live, ids))
    decreases |entries|
  {
    if entries != [] {
      var n := |entries| - 1;
      var init, e := entries[..n], entries[n];
      OtherTurns(init, live, rs, recovered, inputs, ids);
      if e.createOptions.Some? {
        OtherCalls(LiveAfter(init, live, rs, recovered, inputs), StepOf(e, rs, recovered, inputs).calls, inputs(e.name).answers, ids);
      }
    }
  }

  /** The unit's runners after all turns: those its own calls leave, less some. */
  lemma {:induction false} TurnsAround(entries: seq<Entry>, k: nat, live: Runners, rs: Registrations, recovered: Data,
                                       inputs: Inputs, ids: set<int>)
    requires k < |entries| && entries[k].createOptions.Some? && CreatedId(entries[k], inputs) in ids
    requires forall i | 0 <= i < |entries| && i != k && entries[i].createOptions.Some? :: CreatedId(entries[i], inputs) !in ids
    ensures SubMap(Mine(LiveAfter(entries, live, rs, recovered, inputs), ids),
                   Effects(Mine(LiveAfter(entries[..k], live, rs, recovered, inputs), ids),
                           StepOf(entries[k], rs, recovered, inputs).calls, inputs(entries[k].name).answers))
    decreases |entries|
  {
    var n := |entries| - 1;
    var init, e := entries[..n], entries[n];
    var before := LiveAfter(init, live, rs, recovered, inputs);
    if n == k {
      OwnCalls(before, StepOf(e, rs, recovered, inputs).calls, inputs(e.name).answers, ids);
    } else {
      assert init[..k] == entries[..k];
      TurnsAround(init, k, live, rs, recovered, inputs, ids);
      if e.createOptions.Some? {
        OtherCalls(before, StepOf(e, rs, recovered, inputs).calls, inputs(e.name).answers, ids);
      }
    }
  }

  // ----- the stored status -----

  /** No immediate write touches the registration of a unit that is unmanaged or whose turn did
      not come. */
  lemma {:induction false} StoredBefore(entries: seq<Entry>, stored0: Status, status0: Status, recovered: Data,
                                        inputs: Inputs, name: string)
    requires stored0.registrations == status0.registrations
    requires status0.registrations.PerEntry? || forall i | 0 <= i < |entries| :: entries[i].createOptions.None?
    requires forall i | 0 <= i < |entries| && entries[i].name == name :: entries[i].createOptions.None?
    ensures Lookup(StoredAll(entries, stored0, status0, recovered, inputs).registrations, name) == Lookup(status0.registrations, name)
    decreases |entries|
  {
    if entries != [] {
      StoredBefore(entries[..|entries| - 1], stored0, status0, recovered, inputs, name);
      OthersKeepTheirRegistration(entries, status0.registrations, recovered, inputs, name);
    }
  }

  lemma StoredLast(entries: seq<Entry>, stored0: Status, status0: Status, recovered: Data, inputs: Inputs)
    requires entries != []
    ensures
      var e, rs := entries[|entries| - 1], status0.registrations;
      StoredAll(entries, stored0, status0, recovered, inputs).registrations ==
      if e.createOptions.Some? && StepOf(e, rs, recovered, inputs).stored then RecordAll(entries, rs, recovered, inputs)
      else StoredAll(entries[..|entries| - 1], stored0, status0, recovered, inputs).registrations
  {
  }

  /** The immediate writes leave the unit's registration as its own turn made it, or as it was,
      and the former if its own write landed. */
  lemma {:induction false} StoredAround(entries: seq<Entry>, k: nat, stored0: Status, status0: Status, recovered: Data,
                                        inputs: Inputs)
    requires UniqueNames(entries) && (status0.registrations.One? ==> |entries| <= 1)
    requires k < |entries| && entries[k].createOptions.Some? && stored0.registrations == status0.registrations
    ensures
      var step := StepOf(entries[k], status0.registrations, recovered, inputs);
      var reg := Lookup(StoredAll(entries, stored0, status0, recovered, inputs).registrations, entries[k].name);
      reg == step.reg || (!step.stored && reg == Lookup(status0.registrations, entries[k].name))
    decreases |entries|
  {
    hide RecordAll, StoredAll;
    var n := |entries| - 1;
    TurnsAreIndependent(entries, status0.registrations, recovered, inputs, k);
    StoredLast(entries, stored0, status0, recovered, inputs);
    if k < n {
      StoredAround(entries[..n], k, stored0, status0, recovered, inputs);
    } else {
      StoredBefore(entries[..n], stored0, status0, recovered, inputs, entries[k].name);
    }
  }

  // ----- the whole pass -----

  /** What the parts of a pass promise about the three stores: `turns` units took their turn,
      the status holds what the immediate writes left or what is in memory, and the Secret is
      as before or holds the tokens of all units. */
  ghost predicate PassOutcome(entries: seq<Entry>, inputs: Inputs, before: ObjectState, stored0: Status, status0: Status,
                              recovered: Data,
                              turns: nat, tokens: Data, after: ObjectState) {
    && turns <= |entries| && UniqueNames(entries) && (status0.registrations.One? ==> |entries| <= 1)
    && before.registrations == stored0.registrations == status0.registrations
    && (turns > 0 ==> AreTokensOf(recovered, before.secret.GetOr(map[])))
    && after.live == LiveAfter(entries[..turns], before.live, status0.registrations, recovered, inputs)
    && (after.registrations == RecordAll(entries[..turns], status0.registrations, recovered, inputs)
        || after.registrations == StoredAll(entries[..turns], stored0, status0, recovered, inputs).registrations)
    && (after.secret == before.secret
        || (turns == |entries| && HoldsTokens(after.secret, tokens) && TokensOf(entries, status0.registrations, recovered, inputs, tokens)))
  }

  /** The unit's token in the Secret is the one it was issued in this pass, or the old one. */
  lemma TokenAround(entries: seq<Entry>, k: nat, rs: Registrations, recovered: Data, inputs: Inputs, data: Option<Data>,
                    tokens: Data)
    requires k < |entries| && HoldsTokens(data, tokens) && TokensOf(entries, rs, recovered, inputs, tokens)
    ensures TurnOf(entries[k], rs, recovered, inputs).Some?
    ensures TokenFor(TokensIn(data), entries[k].name) == TurnOf(entries[k], rs, recovered, inputs).value.token
  {
  }

  /** So neither the status nor what is in memory speaks of a change of it. */
  lemma RegistrationKept(taken: seq<Entry>, stored0: Status, status0: Status, recovered: Data, inputs: Inputs, name: string)
    requires stored0.registrations == status0.registrations
    requires status0.registrations.PerEntry? || forall i | 0 <= i < |taken| :: taken[i].createOptions.None?
    requires forall i | 0 <= i < |taken| && taken[i].name == name :: taken[i].createOptions.None?
    ensures Lookup(StoredAll(taken, stored0, status0, recovered, inputs).registrations, name) == Lookup(status0.registrations, name)
    ensures Lookup(RecordAll(taken, status0.registrations, recovered, inputs), name) == Lookup(status0.registrations, name)
  {
    StoredBefore(taken, stored0, status0, recovered, inputs, name);
    OthersKeepTheirRegistration(taken, status0.registrations, recovered, inputs, name);
  }

  /** The ids created for a unit are not those any other unit of the pass may get. */
  predicate Apart(taken: seq<Entry>, inputs: Inputs, ids: set<int>, except: int) {
    forall i | 0 <= i < |taken| && i != except && taken[i].createOptions.Some? :: CreatedId(taken[i], inputs) !in ids
  }

  lemma FreshIdsAreApart(entries: seq<Entry>, n: nat, inputs: Inputs, live: Runners, name: string, ids: set<int>)
    requires FreshIds(entries, inputs, live) && ids <= live.Keys && n <= |entries|
    ensures Apart(entries[..n], inputs, IdsAfter(entries, inputs, name, ids),
                  if ManagedAt(entries, name).Some? then ManagedAt(entries, name).value else -1)
    ensures Mine(live, IdsAfter(entries, inputs, name, ids)) == Mine(live, ids)
  {
  }

  /** What removals by other units amount to. */
  lemma RemovedByOthers(taken: seq<Entry>, live: Runners, rs: Registrations, recovered: Data, inputs: Inputs, ids: set<int>)
    returns (a: set<int>)
    requires Apart(taken, inputs, ids, -1)
    ensures Mine(LiveAfter(taken, live, rs, recovered, inputs), ids) == Mine(live, ids) - a
  {
    OtherTurns(taken, live, rs, recovered, inputs, ids);
    var left := Mine(LiveAfter(taken, live, rs, recovered, inputs), ids);
    a := Mine(live, ids).Keys - left.Keys;
    SubMapIsRemoval(left, Mine(live, ids));
  }

  lemma RemovedAround(taken: seq<Entry>, k: nat, live: Runners, rs: Registrations, recovered: Data, inputs: Inputs,
                      ids: set<int>)
    returns (a: set<int>, b: set<int>)
    requires k < |taken| && taken[k].createOptions.Some? && Apart(taken, inputs, ids, k) && CreatedId(taken[k], inputs) in ids
    ensures Mine(LiveAfter(taken, live, rs, recovered, inputs), ids)
            == Effects(Mine(live, ids) - a, StepOf(taken[k], rs, recovered, inputs).calls, inputs(taken[k].name).answers) - b
  {
    a := RemovedByOthers(taken[..k], live, rs, recovered, inputs, ids);
    TurnsAround(taken, k, live, rs, recovered, inputs, ids);
    var own := Effects(Mine(live, ids) - a, StepOf(taken[k], rs, recovered, inputs).calls, inputs(taken[k].name).answers);
    var left := Mine(LiveAfter(taken, live, rs, recovered, inputs), ids);
    b := own.Keys - left.Keys;
    SubMapIsRemoval(left, own);
  }

  lemma RunOfOne(w: OA.World, e: OA.Event)
    requires !e.Reconciled?
    ensures OA.FreshRunners(w, [e]) && OA.Run(w, [e]) == OA.Next(w, e) && OA.FaultsOf(w, [e]) == OA.Faults(w, e)
  {
    assert [e][1..] == [];
  }

  lemma RunOfMore(w: OA.World, e: OA.Event, rest: seq<OA.Event>)
    ensures OA.Run(w, [e] + rest) == OA.Run(OA.Next(w, e), rest)
    ensures OA.FaultsOf(w, [e] + rest) == OA.Faults(w, e) + OA.FaultsOf(OA.Next(w, e), rest)
    ensures OA.FreshRunners(w, [e] + rest) <==> OA.FreshRunners(w, [e]) && OA.FreshRunners(OA.Next(w, e), rest)
  {
    assert ([e] + rest)[1..] == rest && [e][1..] == [];
  }

  /** A unit whose turn did not come keeps its registration and its token. */
  lemma TurnNotCome(entries: seq<Entry>, inputs: Inputs, turns: nat, name: string, ids: set<int>, before: ObjectState,
                    stored0: Status, status0: Status, recovered: Data, tokens: Data, after: ObjectState)
    requires PassOutcome(entries, inputs, before, stored0, status0, recovered, turns, tokens, after)
    requires FreshIds(entries, inputs, before.live) && ids <= before.live.Keys
    requires ManagedAt(entries, name).Some? && turns <= ManagedAt(entries, name).value
    ensures UnitAccounted(entries, inputs, turns, name, ids, before, after)
  {
    var taken, all := entries[..turns], IdsAfter(entries, inputs, name, ids);
    FreshIdsAreApart(entries, turns, inputs, before.live, name, ids);
    var a := RemovedByOthers(taken, before.live, status0.registrations, recovered, inputs, all);
    RegistrationKept(taken, stored0, status0, recovered, inputs, name);
    RunOfOne(UnitWorld(before, ids, name), OA.RunnersRemoved(a));
    assert Accounts(entries, inputs, turns, name, ids, before, after, a, {});
  }

  /** A unit that is not managed in this pass keeps its registration, whatever becomes of its token. */
  lemma NotManaged(entries: seq<Entry>, inputs: Inputs, turns: nat, name: string, ids: set<int>, before: ObjectState,
                   stored0: Status, status0: Status, recovered: Data, tokens: Data, after: ObjectState)
    requires PassOutcome(entries, inputs, before, stored0, status0, recovered, turns, tokens, after)
    requires FreshIds(entries, inputs, before.live) && ids <= before.live.Keys && Fits(entries, before.registrations, name)
    requires ManagedAt(entries, name).None?
    ensures UnitAccounted(entries, inputs, turns, name, ids, before, after)
  {
    hide LiveAfter, RecordAll, StoredAll, TokensOf, HoldsTokens, OA.Run, OA.FreshRunners;
    var taken, w := entries[..turns], UnitWorld(before, ids, name);
    FreshIdsAreApart(entries, turns, inputs, before.live, name, ids);
    var a := RemovedByOthers(taken, before.live, status0.registrations, recovered, inputs, ids);
    RegistrationKept(taken, stored0, status0, recovered, inputs, name);
    var gone, token := OA.RunnersRemoved(a), OA.Unmanaged(TokenFor(TokensIn(after.secret), name));
    RunOfOne(w, gone);
    RunOfOne(OA.Next(w, gone), token);
    RunOfMore(w, gone, [token]);
    assert [gone] + [token] == EventsOf(entries, inputs, turns, name, before, after, a, {});
    assert Accounts(entries, inputs, turns, name, ids, before, after, a, {});
  }

  /** One unit's own pass, between the removals of the turns around it. */
  lemma OwnPass(w: OA.World, p: OA.Pass, a: set<int>, b: set<int>, after: OA.World)
    requires p.answers.created.id != 0 && p.answers.created.id !in w.live && p.answers.created.token != ""
    requires var step := OA.Ensured(w, p);
             && after.live == Effects(w.live - a, step.calls, p.answers) - b
             && after.status == (if step.stored || p.statusWritten then step.reg else w.status)
             && after.token == (if step.issued.Some? && p.secretWritten then step.issued.value.token else w.token)
    ensures
      var events := [OA.RunnersRemoved(a), OA.Reconciled(p), OA.RunnersRemoved(b)];
      OA.FreshRunners(w, events) && OA.Run(w, events) == after
  {
    var w1 := OA.Next(w, OA.RunnersRemoved(a));
    var w2 := OA.AfterPass(w1, p);
    RunOfMore(w, OA.RunnersRemoved(a), [OA.Reconciled(p)] + [OA.RunnersRemoved(b)]);
    RunOfMore(w1, OA.Reconciled(p), [OA.RunnersRemoved(b)]);
    RunOfOne(w, OA.RunnersRemoved(a));
    RunOfOne(w2, OA.RunnersRemoved(b));
    assert OA.Ensured(w1, p) == OA.Ensured(w, p);
    assert [OA.Reconciled(p)][1..] == [];
    assert OA.FreshRunners(w1, [OA.Reconciled(p)]);
    assert [OA.RunnersRemoved(a), OA.Reconciled(p), OA.RunnersRemoved(b)]
           == [OA.RunnersRemoved(a)] + ([OA.Reconciled(p)] + [OA.RunnersRemoved(b)]);
  }

  /** The stored registration of a unit whose turn came. */
  lemma RegistrationAround(taken: seq<Entry>, k: nat, stored0: Status, status0: Status, recovered: Data, inputs: Inputs,
                           rs: Registrations)
    requires UniqueNames(taken) && (status0.registrations.One? ==> |taken| <= 1)
    requires k < |taken| && taken[k].createOptions.Some? && stored0.registrations == status0.registrations
    requires rs == RecordAll(taken, status0.registrations, recovered, inputs)
             || rs == StoredAll(taken, stored0, status0, recovered, inputs).registrations
    ensures var step := StepOf(taken[k], status0.registrations, recovered, inputs);
            var reg := Lookup(rs, taken[k].name);
            reg == step.reg || (!step.stored && reg == Lookup(status0.registrations, taken[k].name))
  {
    TurnsAreIndependent(taken, status0.registrations, recovered, inputs, k);
    StoredAround(taken, k, stored0, status0, recovered, inputs);
  }

  /** The unit's token after the pass is the one it was issued, or the one before. */
  lemma TokenAfter(entries: seq<Entry>, k: nat, rs: Registrations, recovered: Data, inputs: Inputs, data0: Option<Data>,
                   data1: Option<Data>, tokens: Data)
    requires k < |entries|
    requires data1 == data0 || (HoldsTokens(data1, tokens) && TokensOf(entries, rs, recovered, inputs, tokens))
    ensures var turn, token := TurnOf(entries[k], rs, recovered, inputs), TokenFor(TokensIn(data1), entries[k].name);
            (turn.Some? && token == turn.value.token) || token == TokenFor(TokensIn(data0), entries[k].name)
  {
    if data1 != data0 {
      TokenAround(entries, k, rs, recovered, inputs, data1, tokens);
    }
  }

  lemma TurnCame(entries: seq<Entry>, inputs: Inputs, turns: nat, name: string, ids: set<int>, before: ObjectState,
                 stored0: Status, status0: Status, recovered: Data, tokens: Data, after: ObjectState)
    requires PassOutcome(entries, inputs, before, stored0, status0, recovered, turns, tokens, after)
    requires FreshIds(entries, inputs, before.live) && ids <= before.live.Keys
    requires ManagedAt(entries, name).Some? && ManagedAt(entries, name).value < turns
    ensures UnitAccounted(entries, inputs, turns, name, ids, before, after)
  {
    hide LiveAfter, RecordAll, StoredAll, TokensOf, HoldsTokens;
    var k, all := ManagedAt(entries, name).value, IdsAfter(entries, inputs, name, ids);
    var e, taken, rs := entries[k], entries[..turns], before.registrations;
    TokensInAre(before.secret, recovered);
    TokenAfter(entries, k, rs, recovered, inputs, before.secret, after.secret, tokens);
    FreshIdsAreApart(entries, turns, inputs, before.live, name, ids);
    var a, b := RemovedAround(taken, k, before.live, rs, recovered, inputs, all);
    RegistrationAround(taken, k, stored0, status0, recovered, inputs, after.registrations);
    OwnPass(UnitWorld(before, ids, name), PassOf(e, inputs, before, after), a, b, UnitWorld(after, all, name));
    assert Accounts(entries, inputs, turns, name, ids, before, after, a, b);
  }

  /** However a pass ends, every unit went through a run of the accounting. */
  lemma PassIsAccountedFor(entries: seq<Entry>, inputs: Inputs, before: ObjectState, stored0: Status, status0: Status,
                           recovered: Data, turns: nat, tokens: Data, after: ObjectState)
    requires PassOutcome(entries, inputs, before, stored0, status0, recovered, turns, tokens, after)
    ensures Accounted(entries, inputs, turns, before, after)
  {
    if FreshIds(entries, inputs, before.live) {
      forall name, ids | ids <= before.live.Keys && Fits(entries, before.registrations, name)
        ensures UnitAccounted(entries, inputs, turns, name, ids, before, after)
      {
        match ManagedAt(entries, name)
        case None => NotManaged(entries, inputs, turns, name, ids, before, stored0, status0, recovered, tokens, after);
        case Some(k) =>
          if k < turns {
            TurnCame(entries, inputs, turns, name, ids, before, stored0, status0, recovered, tokens, after);
          } else {
            TurnNotCome(entries, inputs, turns, name, ids, before, stored0, status0, recovered, tokens, after);
          }
      }
    }
  }

  // ----- over the life of an object -----

  /** What can happen to an object's stores: a pass over whatever entries its spec has by then,
      of which `turns` took their turn, an interference from outside, or runners that other
      objects or users register under ids of their own. */
  datatype ObjectEvent =
    | Passed(entries: seq<Entry>, inputs: Inputs, turns: nat, after: ObjectState)
    | SecretEdited(secret: Option<Data>)
    | TokenRevoked(id: int, token: string)
    | RunnersRemoved(ids: set<int>)
    | OthersRegistered(more: Runners)

  function After(s: ObjectState, e: ObjectEvent): ObjectState {
    match e
    case Passed(_, _, _, after) => after
    case SecretEdited(secret) => s.(secret := secret)
    case TokenRevoked(id, token) => if id in s.live then s.(live := s.live[id := token]) else s
    case RunnersRemoved(ids) => s.(live := s.live - ids)
    case OthersRegistered(more) => s.(live := more + s.live)
  }

  /** Passes are as a reconcile leaves them, over specs in which a Runner keeps its name. */
  ghost predicate Possible(s: ObjectState, e: ObjectEvent, name: string) {
    e.Passed? ==>
      && FreshIds(e.entries, e.inputs, s.live) && Fits(e.entries, s.registrations, name)
      && Accounted(e.entries, e.inputs, e.turns, s, e.after)
  }

  /** The live runners created for the unit. */
  function OwnIds(s: ObjectState, e: ObjectEvent, name: string, ids: set<int>): set<int> {
    (if e.Passed? then IdsAfter(e.entries, e.inputs, name, ids) else ids) * After(s, e).live.Keys
  }

  /** An interference as the unit sees it. */
  function Interference(e: ObjectEvent, name: string): OA.Event
    requires !e.Passed?
  {
    match e
    case SecretEdited(secret) => OA.SecretEdited(TokenFor(TokensIn(secret), name))
    case TokenRevoked(id, token) => OA.TokenRevoked(id, token)
    case RunnersRemoved(ids) => OA.RunnersRemoved(ids)
    case OthersRegistered(_) => OA.RunnersRemoved({})
  }

  /** The faults of the event that concern the unit. */
  function UnitFaults(s: ObjectState, e: ObjectEvent, name: string, ids: set<int>): nat {
    var w := UnitWorld(s, ids, name);
    match e
    case Passed(entries, inputs, turns, after) =>
      (match ManagedAt(entries, name)
       case Some(k) => if k < turns then OA.Faults(w, OA.Reconciled(PassOf(entries[k], inputs, s, after))) else 0
       case None => OA.Faults(w, OA.Unmanaged(TokenFor(TokensIn(after.secret), name))))
    case _ => OA.Faults(w, Interference(e, name))
  }

  function Life(s: ObjectState, events: seq<ObjectEvent>): ObjectState
    decreases |events|
  {
    if events == [] then s else Life(After(s, events[0]), events[1..])
  }

  ghost predicate PossibleLife(s: ObjectState, events: seq<ObjectEvent>, name: string)
    decreases |events|
  {
    events == [] || (Possible(s, events[0], name) && PossibleLife(After(s, events[0]), events[1..], name))
  }

  function IdsOfLife(s: ObjectState, events: seq<ObjectEvent>, name: string, ids: set<int>): set<int>
    decreases |events|
  {
    if events == [] then ids else IdsOfLife(After(s, events[0]), events[1..], name, OwnIds(s, events[0], name, ids))
  }

  function FaultsOfLife(s: ObjectState, events: seq<ObjectEvent>, name: string, ids: set<int>): nat
    decreases |events|
  {
    if events == [] then 0
    else UnitFaults(s, events[0], name, ids) + FaultsOfLife(After(s, events[0]), events[1..], name, OwnIds(s, events[0], name, ids))
  }

  /** Removals are no faults, and do not change what a pass costs. */
  lemma EventsCost(w: OA.World, a: set<int>, middle: OA.Event, b: set<int>)
    requires middle.Reconciled? || middle.Unmanaged?
    ensures OA.FaultsOf(w, [OA.RunnersRemoved(a), middle]) == OA.Faults(w, middle)
    ensures OA.FaultsOf(w, [OA.RunnersRemoved(a), middle, OA.RunnersRemoved(b)]) == OA.Faults(w, middle)
  {
    var w1 := OA.Next(w, OA.RunnersRemoved(a));
    RunOfMore(w, OA.RunnersRemoved(a), [middle]);
    RunOfMore(w, OA.RunnersRemoved(a), [middle] + [OA.RunnersRemoved(b)]);
    RunOfMore(w1, middle, []);
    RunOfMore(w1, middle, [OA.RunnersRemoved(b)]);
    RunOfOne(OA.Next(w1, middle), OA.RunnersRemoved(b));
    assert [middle] + [] == [middle];
    assert [OA.RunnersRemoved(a), middle] == [OA.RunnersRemoved(a)] + [middle];
    assert [OA.RunnersRemoved(a), middle, OA.RunnersRemoved(b)] == [OA.RunnersRemoved(a)] + ([middle] + [OA.RunnersRemoved(b)]);
  }

  /** Runners that are gone are nobody's. */
  lemma OnlyLiveIdsMatter(live: Runners, ids: set<int>)
    ensures Mine(live, ids * live.Keys) == Mine(live, ids)
    ensures Mine(live, ids * live.Keys).Keys == ids * live.Keys
  {
  }

  lemma PassCosts(s: ObjectState, entries: seq<Entry>, inputs: Inputs, turns: nat, after: ObjectState, name: string,
                  ids: set<int>,
                  a: set<int>, b: set<int>)
    ensures OA.FaultsOf(UnitWorld(s, ids, name), EventsOf(entries, inputs, turns, name, s, after, a, b))
            == UnitFaults(s, Passed(entries, inputs, turns, after), name, ids)
  {
    var w := UnitWorld(s, ids, name);
    match ManagedAt(entries, name)
    case None => EventsCost(w, a, OA.Unmanaged(TokenFor(TokensIn(after.secret), name)), b);
    case Some(k) =>
      if k < turns {
        EventsCost(w, a, OA.Reconciled(PassOf(entries[k], inputs, s, after)), b);
      } else {
        RunOfOne(w, OA.RunnersRemoved(a));
      }
  }

  /** The unit's own runners, before and after dropping the ids of those that are gone. */
  lemma GoneIdsDoNotMatter(s: ObjectState, ids: set<int>, name: string)
    ensures UnitWorld(s, ids * s.live.Keys, name) == UnitWorld(s, ids, name)
    ensures 0 !in UnitWorld(s, ids, name).live <==> 0 !in ids * s.live.Keys
  {
    OnlyLiveIdsMatter(s.live, ids);
  }

  /** A pass exposes at most as many of the unit's runners as it has faults for it. */
  lemma PassIsPaidFor(s: ObjectState, entries: seq<Entry>, inputs: Inputs, turns: nat, after: ObjectState, name: string,
                      ids: set<int>)
    requires Possible(s, Passed(entries, inputs, turns, after), name) && ids <= s.live.Keys && 0 !in ids
    ensures
      var w, w' := UnitWorld(s, ids, name), UnitWorld(after, IdsAfter(entries, inputs, name, ids), name);
      && 0 !in w'.live
      && OA.Exposed(w') <= OA.Exposed(w) + UnitFaults(s, Passed(entries, inputs, turns, after), name, ids)
  {
    assert UnitAccounted(entries, inputs, turns, name, ids, s, after);
    var a, b :| Accounts(entries, inputs, turns, name, ids, s, after, a, b);
    OA.RunIsPaidFor(UnitWorld(s, ids, name), EventsOf(entries, inputs, turns, name, s, after, a, b));
    PassCosts(s, entries, inputs, turns, after, name, ids, a, b);
  }

  lemma InterferenceIsSeen(s: ObjectState, e: ObjectEvent, name: string, ids: set<int>)
    requires !e.Passed? && ids <= s.live.Keys
    ensures UnitWorld(After(s, e), ids, name) == OA.Next(UnitWorld(s, ids, name), Interference(e, name))
  {
    var seen := OA.Next(UnitWorld(s, ids, name), Interference(e, name)).live;
    assert Mine(After(s, e).live, ids) == seen by {
      assert Mine(After(s, e).live, ids).Keys == seen.Keys;
    }
  }

  /** So does an interference from outside. */
  lemma InterferenceIsPaidFor(s: ObjectState, e: ObjectEvent, name: string, ids: set<int>)
    requires !e.Passed? && ids <= s.live.Keys && 0 !in ids
    ensures
      var w, w' := UnitWorld(s, ids, name), UnitWorld(After(s, e), ids, name);
      0 !in w'.live && OA.Exposed(w') <= OA.Exposed(w) + UnitFaults(s, e, name, ids)
  {
    InterferenceIsSeen(s, e, name, ids);
    assert [Interference(e, name)][1..] == [];
    OA.StepIsPaidFor(UnitWorld(s, ids, name), Interference(e, name));
  }

  lemma EventIsPaidFor(s: ObjectState, e: ObjectEvent, name: string, ids: set<int>)
    requires Possible(s, e, name) && ids <= s.live.Keys && 0 !in ids
    ensures 0 !in OwnIds(s, e, name, ids) && OwnIds(s, e, name, ids) <= After(s, e).live.Keys
    ensures OA.Exposed(UnitWorld(After(s, e), OwnIds(s, e, name, ids), name)) <=
            OA.Exposed(UnitWorld(s, ids, name)) + UnitFaults(s, e, name, ids)
  {
    if e.Passed? {
      PassIsPaidFor(s, e.entries, e.inputs, e.turns, e.after, name, ids);
      GoneIdsDoNotMatter(e.after, IdsAfter(e.entries, e.inputs, name, ids), name);
    } else {
      InterferenceIsPaidFor(s, e, name, ids);
      GoneIdsDoNotMatter(After(s, e), ids, name);
    }
  }

  /** Over the whole life of an object, however its spec changes, the live runners created for
      a unit that its status does not name never outnumber the unit's faults, whatever was
      exposed at the start. */
  lemma {:induction false} LifeIsPaidFor(s: ObjectState, events: seq<ObjectEvent>, name: string, ids: set<int>)
    requires PossibleLife(s, events, name) && ids <= s.live.Keys && 0 !in ids
    ensures |OA.Orphans(UnitWorld(Life(s, events), IdsOfLife(s, events, name, ids), name))| <=
            OA.Exposed(UnitWorld(s, ids, name)) + FaultsOfLife(s, events, name, ids)
    decreases |events|
  {
    if events == [] {
      OA.OrphansAreExposed(UnitWorld(s, ids, name));
    } else {
      EventIsPaidFor(s, events[0], name, ids);
      LifeIsPaidFor(After(s, events[0]), events[1..], name, OwnIds(s, events[0], name, ids));
    }
  }

  /** A unit that had no runner yet: no fault, no orphan. */
  lemma NewUnitIsPaidFor(s: ObjectState, events: seq<ObjectEvent>, name: string)
    requires PossibleLife(s, events, name)
    ensures |OA.Orphans(UnitWorld(Life(s, events), IdsOfLife(s, events, name, {}), name))| <= FaultsOfLife(s, events, name, {})
  {
    LifeIsPaidFor(s, events, name, {});
    assert Mine(s.live, {}) == map[];
  }
}
