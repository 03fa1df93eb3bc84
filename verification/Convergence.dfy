/** How many fault-free passes it takes to become ready, and what happens afterwards. */
module Convergence {
  import opened Common
  import opened ManagedRunner
  import opened RunnerObject
  import opened EnsureRunners
  import opened ConfigSecret
  import opened ManagerDeployment
  import opened GenerateConfig

  /** What a pass reads and does not change. `render` lays text and tokens out in a Secret and
      `recover` reads the tokens back. */
  datatype Spec = Spec(entries: seq<Entry>, namespace: string, ca: string, customCA: bool, codec: Codec,
                       render: (string, Data) -> Data, recover: Option<Data> -> Data,
                       admit: Admission, systemId: string, shape: PodShape)

  /** The Secret is laid out and read as `ConfigSecret` says. */
  ghost predicate UsesConfigSecret(spec: Spec) {
    && (forall text, tokens :: IsRendered((spec.render)(text, tokens), text, tokens, spec.ca))
    && (forall data :: AreTokensOf((spec.recover)(data), data.GetOr(map[])))
  }

  /** There is such a layout. */
  lemma ConfigSecretServes(spec: Spec)
    ensures UsesConfigSecret(spec.(render := (text: string, tokens: Data) => Rendered(text, tokens, spec.ca), recover := TokensIn))
  {
    forall data: Option<Data>
      ensures AreTokensOf(TokensIn(data), data.GetOr(map[]))
    {
      TokensInAre(data, TokensIn(data));
    }
  }

  /** Tokens are recovered as they were laid out. */
  ghost predicate RoundTrips(spec: Spec) {
    forall text, tokens :: (spec.recover)(Some((spec.render)(text, tokens))) == tokens
  }

  lemma ConfigSecretRoundTrips(spec: Spec)
    requires UsesConfigSecret(spec)
    ensures RoundTrips(spec)
  {
  }

  /** What a pass reads and changes, RBAC aside. */
  datatype Snapshot = Snapshot(finalizer: bool, ready: bool, registrations: Registrations, secret: Option<Data>,
                               deployment: Option<Deployment>)

  function TokenMap(entries: seq<Entry>, rs: Registrations, recovered: Data, inputs: Inputs): Data {
    if entries == [] then map[]
    else
      var n := |entries| - 1;
      var turn := TurnOf(entries[n], rs, recovered, inputs);
      TokenMap(entries[..n], rs, recovered, inputs)[entries[n].name := if turn.Some? then turn.value.token else ""]
  }

  predicate TurnsSucceed(entries: seq<Entry>, rs: Registrations, recovered: Data, inputs: Inputs) {
    forall e | e in entries :: TurnOf(e, rs, recovered, inputs).Some?
  }

  function TextOf(spec: Spec, tokens: Data): string {
    (spec.codec.encode)(ConfigOf(spec.entries, spec.namespace, tokens, spec.customCA))
  }

  function DataOf(spec: Spec, tokens: Data): Data {
    (spec.render)(TextOf(spec, tokens), tokens)
  }

  function WantedOf(spec: Spec, tokens: Data): Deployment {
    WantedDeployment(Version(spec.codec, TextOf(spec, tokens), spec.ca), spec.systemId, spec.shape)
  }

  /** The pass after the units' turns: the Secret first, the Deployment once it is settled. */
  function Finish(sn: Snapshot, spec: Spec, rs: Registrations, tokens: Data): Snapshot {
    if sn.secret != Some(DataOf(spec, tokens)) then
      Snapshot(true, false, rs, Some(DataOf(spec, tokens)), sn.deployment)
    else
      var d := Sync(sn.deployment, WantedOf(spec, tokens), spec.admit);
      Snapshot(true, d.1.Settled?, rs, sn.secret, Some(d.0))
  }

  /** One pass in which no call fails, over an allowed object that is not being deleted. */
  function FaultFreePass(sn: Snapshot, spec: Spec, inputs: Inputs): Snapshot {
    if !sn.finalizer then sn.(finalizer := true)
    else
      var recovered := (spec.recover)(sn.secret);
      Finish(sn, spec, RecordAll(spec.entries, sn.registrations, recovered, inputs),
             TokenMap(spec.entries, sn.registrations, recovered, inputs))
  }

  // ----- the tokens of a pass -----

  lemma {:induction false} TokenMapHolds(entries: seq<Entry>, rs: Registrations, recovered: Data, inputs: Inputs)
    requires UniqueNames(entries) && TurnsSucceed(entries, rs, recovered, inputs)
    ensures TokensOf(entries, rs, recovered, inputs, TokenMap(entries, rs, recovered, inputs))
    decreases |entries|
  {
    if entries != [] {
      var n := |entries| - 1;
      var init, last := entries[..n], entries[n];
      TokenMapHolds(init, rs, recovered, inputs);
      assert init + [last] == entries;
      assert last in entries;
      AnotherToken(init, last, rs, recovered, inputs, TokenMap(init, rs, recovered, inputs));
      TokenMapStep(entries, rs, recovered, inputs, TurnOf(last, rs, recovered, inputs).value.token);
    }
  }

  lemma TokensAreUnique(entries: seq<Entry>, rs: Registrations, recovered: Data, inputs: Inputs, t1: Data, t2: Data)
    requires TokensOf(entries, rs, recovered, inputs, t1) && TokensOf(entries, rs, recovered, inputs, t2)
    ensures t1 == t2
  {
  }

  // ----- a calm world -----

  /** A world without faults: which tokens GitLab accepts, what it issues in the i-th pass,
      what provided-token sources hold, and when each pass runs. */
  datatype Calm = Calm(provided: string -> string, accepts: string -> bool, issue: (nat, string) -> CreatedRunner,
                       now: nat -> int)

  function InputsAt(c: Calm, recovered: Data, i: nat): Inputs {
    name => UnitInput(
      Some((c.provided)(name)), (c.now)(i),
      Answers(true, Done, Done, Done, (c.issue)(i, name),
              if (c.accepts)(TokenFor(recovered, name)) then Accepted else Rejected, Done))
  }

  predicate HasProvidedTokens(c: Calm, entries: seq<Entry>) {
    forall i | 0 <= i < |entries| && entries[i].createOptions.None? :: (c.provided)(entries[i].name) != ""
  }

  /** The unit's source holds a token; or what it is issued is accepted and outlasts the
      `horizon` passes by a day, and the registration found at the start does not cross the
      refresh threshold meanwhile. */
  ghost predicate UnitIsCalm(c: Calm, e: Entry, rs: Registrations, horizon: nat) {
    if e.createOptions.None? then (c.provided)(e.name) != ""
    else
      && (forall i: nat :: (c.issue)(i, e.name).id != 0 && (c.issue)(i, e.name).token != "" && (c.accepts)((c.issue)(i, e.name).token))
      && (forall i: nat, j: nat | j < horizon :: !NearExpiry((c.issue)(i, e.name).expiresAt, (c.now)(j)))
      && (forall i: nat, j: nat | i < horizon && j < horizon && NearExpiry(Lookup(rs, e.name).expiresAt, (c.now)(j)) ::
            NearExpiry(Lookup(rs, e.name).expiresAt, (c.now)(i)))
  }

  /** So it is for every unit of the spec. */
  ghost predicate IsCalm(c: Calm, entries: seq<Entry>, rs: Registrations, horizon: nat) {
    forall e | e in entries :: UnitIsCalm(c, e, rs, horizon)
  }

  /** There are such worlds, whatever was registered at the start. */
  lemma SomeWorldIsCalm(entries: seq<Entry>, rs: Registrations, horizon: nat)
    ensures exists c :: IsCalm(c, entries, rs, horizon)
  {
    var c := Calm(_ => "t", _ => true, (i, name) => CreatedRunner(1, "t", None), _ => 0);
    assert IsCalm(c, entries, rs, horizon);
  }

  /** What the i-th calm pass makes of a state. */
  function CalmPass(before: Snapshot, spec: Spec, c: Calm, i: nat): Snapshot {
    FaultFreePass(before, spec, InputsAt(c, (spec.recover)(before.secret), i))
  }

  function NextAt(run: seq<Snapshot>, i: nat, spec: Spec, c: Calm): Snapshot
    requires 0 < i < |run|
  {
    CalmPass(run[i - 1], spec, c, i - 1)
  }

  /** The states before, between and after consecutive passes. */
  ghost predicate IsRun(run: seq<Snapshot>, spec: Spec, c: Calm) {
    |run| > 0 && forall i {:trigger NextAt(run, i, spec, c)} | 0 < i < |run| :: run[i] == NextAt(run, i, spec, c)
  }

  /** The unit is registered as wanted and its token is at hand. */
  ghost predicate UnitRegistered(e: Entry, rs: Registrations, tokens: Data, c: Calm, horizon: nat) {
    e.name in tokens &&
    if e.createOptions.None? then tokens[e.name] == (c.provided)(e.name)
    else
      && Lookup(rs, e.name).runnerId != 0 && Lookup(rs, e.name).hash == e.createOptions.value
      && (forall j: nat | j < horizon :: !NearExpiry(Lookup(rs, e.name).expiresAt, (c.now)(j)))
      && tokens[e.name] != "" && (c.accepts)(tokens[e.name])
  }

  /** Every unit is registered and no other token is kept. */
  ghost predicate Registered(entries: seq<Entry>, rs: Registrations, tokens: Data, c: Calm, horizon: nat) {
    && (forall i | 0 <= i < |entries| :: UnitRegistered(entries[i], rs, tokens, c, horizon))
    && (forall name | name in tokens :: exists i :: 0 <= i < |entries| && entries[i].name == name)
  }

  /** The state after the first full pass: registered, and the Secret just as rendered. */
  ghost predicate Provisioned(sn: Snapshot, spec: Spec, c: Calm, horizon: nat) {
    && sn.finalizer
    && Registered(spec.entries, sn.registrations, (spec.recover)(sn.secret), c, horizon)
    && sn.secret == Some(DataOf(spec, (spec.recover)(sn.secret)))
  }

  predicate WellFormedFor(spec: Spec, rs: Registrations) {
    UniqueNames(spec.entries) && (rs.One? ==> |spec.entries| <= 1)
  }

  /** The turn of one unit in a calm pass. */
  lemma CalmTurn(e: Entry, rs: Registrations, recovered: Data, c: Calm, i: nat, horizon: nat)
    requires UnitIsCalm(c, e, rs, horizon) && i < horizon
    ensures
      var inputs := InputsAt(c, recovered, i);
      var turn := TurnOf(e, rs, recovered, inputs);
      && turn.Some?
      && (e.createOptions.None? ==> turn.value.token == (c.provided)(e.name))
      && (e.createOptions.Some? ==>
            var reg := StepOf(e, rs, recovered, inputs).reg;
            && reg.runnerId != 0 && reg.hash == e.createOptions.value
            && (forall j: nat | j < horizon :: !NearExpiry(reg.expiresAt, (c.now)(j)))
            && turn.value.token != "" && (c.accepts)(turn.value.token))
  {
    var inputs := InputsAt(c, recovered, i);
    if e.createOptions.Some? {
      var token := if e.name in recovered then recovered[e.name] else "";
      var a, reg := inputs(e.name).answers, Lookup(rs, e.name);
      var step := StepOf(e, rs, recovered, inputs);
      IssuedTokenIsCurrent(reg, token, e.createOptions.value, (c.now)(i), a, map[]);
      UnrecordedKeepsReg(reg, token, e.createOptions.value, (c.now)(i), a);
    }
  }

  lemma TurnsRegister(entries: seq<Entry>, rs: Registrations, recovered: Data, c: Calm, i: nat, horizon: nat)
    requires UniqueNames(entries) && (rs.One? ==> |entries| <= 1)
    requires IsCalm(c, entries, rs, horizon) && i < horizon
    ensures
      var inputs := InputsAt(c, recovered, i);
      && TurnsSucceed(entries, rs, recovered, inputs)
      && Registered(entries, RecordAll(entries, rs, recovered, inputs), TokenMap(entries, rs, recovered, inputs), c, horizon)
  {
    var inputs := InputsAt(c, recovered, i);
    forall e | e in entries
      ensures TurnOf(e, rs, recovered, inputs).Some?
    {
      CalmTurn(e, rs, recovered, c, i, horizon);
    }
    TokenMapHolds(entries, rs, recovered, inputs);
    var tokens, rs' := TokenMap(entries, rs, recovered, inputs), RecordAll(entries, rs, recovered, inputs);
    forall k | 0 <= k < |entries|
      ensures UnitRegistered(entries[k], rs', tokens, c, horizon)
    {
      CalmTurn(entries[k], rs, recovered, c, i, horizon);
      if entries[k].createOptions.Some? {
        TurnsAreIndependent(entries, rs, recovered, inputs, k);
      }
    }
  }

  /** A full pass leaves the object provisioned, whatever it found. */
  lemma FirstPassProvisions(sn: Snapshot, spec: Spec, c: Calm, i: nat, horizon: nat)
    requires sn.finalizer && WellFormedFor(spec, sn.registrations) && RoundTrips(spec)
    requires IsCalm(c, spec.entries, sn.registrations, horizon) && i < horizon
    ensures Provisioned(FaultFreePass(sn, spec, InputsAt(c, (spec.recover)(sn.secret), i)), spec, c, horizon)
    ensures FaultFreePass(sn, spec, InputsAt(c, (spec.recover)(sn.secret), i)).registrations.One? <==> sn.registrations.One?
  {
    var recovered, rs := (spec.recover)(sn.secret), sn.registrations;
    var inputs := InputsAt(c, recovered, i);
    TurnsRegister(spec.entries, rs, recovered, c, i, horizon);
    RecordKeepsForm(spec.entries, rs, recovered, inputs);
  }

  // ----- from then on -----

  /** A registered unit only checks its token and returns it. */
  lemma SteadyTurn(e: Entry, rs: Registrations, tokens: Data, c: Calm, i: nat, horizon: nat)
    requires UnitRegistered(e, rs, tokens, c, horizon) && i < horizon && (e.createOptions.None? ==> (c.provided)(e.name) != "")
    ensures
      var inputs := InputsAt(c, tokens, i);
      && TurnOf(e, rs, tokens, inputs).Some? && TurnOf(e, rs, tokens, inputs).value.token == tokens[e.name]
      && (e.createOptions.Some? ==> StepOf(e, rs, tokens, inputs).calls == [Verify(tokens[e.name])]
                                    && !Recorded(StepOf(e, rs, tokens, inputs), inputs(e.name).answers))
  {
  }

  lemma {:induction false} SteadyRecords(entries: seq<Entry>, rs: Registrations, tokens: Data, c: Calm, i: nat, horizon: nat)
    requires i < horizon && HasProvidedTokens(c, entries)
    requires forall k | 0 <= k < |entries| :: UnitRegistered(entries[k], rs, tokens, c, horizon)
    ensures RecordAll(entries, rs, tokens, InputsAt(c, tokens, i)) == rs
    decreases |entries|
  {
    if entries != [] {
      var n := |entries| - 1;
      SteadyRecords(entries[..n], rs, tokens, c, i, horizon);
      SteadyTurn(entries[n], rs, tokens, c, i, horizon);
    }
  }

  lemma TokenMapStep(entries: seq<Entry>, rs: Registrations, recovered: Data, inputs: Inputs, token: string)
    requires entries != []
    requires var turn := TurnOf(entries[|entries| - 1], rs, recovered, inputs); turn.Some? && turn.value.token == token
    ensures TokenMap(entries, rs, recovered, inputs) ==
            TokenMap(entries[..|entries| - 1], rs, recovered, inputs)[entries[|entries| - 1].name := token]
  {
  }

  /** Each entry has its token from `tokens`, and no other name has one. */
  predicate Among(again: Data, entries: seq<Entry>, tokens: Data) {
    && (forall k | 0 <= k < |entries| :: entries[k].name in again)
    && (forall name | name in again :: name in tokens && again[name] == tokens[name])
  }

  lemma AmongStep(again: Data, init: seq<Entry>, last: Entry, tokens: Data)
    requires Among(again, init, tokens) && last.name in tokens
    ensures Among(again[last.name := tokens[last.name]], init + [last], tokens)
  {
  }

  lemma {:induction false} SteadyMap(entries: seq<Entry>, rs: Registrations, tokens: Data, c: Calm, i: nat, horizon: nat)
    requires i < horizon && HasProvidedTokens(c, entries)
    requires forall k | 0 <= k < |entries| :: UnitRegistered(entries[k], rs, tokens, c, horizon)
    ensures Among(TokenMap(entries, rs, tokens, InputsAt(c, tokens, i)), entries, tokens)
    decreases |entries|
  {
    if entries != [] {
      var n := |entries| - 1;
      var init, last, inputs := entries[..n], entries[n], InputsAt(c, tokens, i);
      SteadyMap(init, rs, tokens, c, i, horizon);
      SteadyTurn(last, rs, tokens, c, i, horizon);
      TokenMapStep(entries, rs, tokens, inputs, tokens[last.name]);
      AmongStep(TokenMap(init, rs, tokens, inputs), init, last, tokens);
      assert entries == init + [last];
    }
  }

  lemma SteadyTokens(entries: seq<Entry>, rs: Registrations, tokens: Data, c: Calm, i: nat, horizon: nat)
    requires Registered(entries, rs, tokens, c, horizon) && i < horizon && HasProvidedTokens(c, entries)
    ensures TokenMap(entries, rs, tokens, InputsAt(c, tokens, i)) == tokens
    ensures RecordAll(entries, rs, tokens, InputsAt(c, tokens, i)) == rs
  {
    SteadyRecords(entries, rs, tokens, c, i, horizon);
    SteadyMap(entries, rs, tokens, c, i, horizon);
    var again := TokenMap(entries, rs, tokens, InputsAt(c, tokens, i));
    forall name | name in tokens
      ensures name in again
    {
      var k :| 0 <= k < |entries| && entries[k].name == name;
    }
  }

  /** What a pass over a provisioned object does: it only moves the Deployment. */
  function Moved(sn: Snapshot, spec: Spec): Snapshot {
    var d := Sync(sn.deployment, WantedOf(spec, (spec.recover)(sn.secret)), spec.admit);
    sn.(ready := d.1.Settled?, deployment := Some(d.0))
  }

  /** A provisioned object keeps its registrations and its Secret. */
  lemma ProvisionedPass(sn: Snapshot, spec: Spec, c: Calm, i: nat, horizon: nat)
    requires Provisioned(sn, spec, c, horizon) && i < horizon && HasProvidedTokens(c, spec.entries)
    ensures FaultFreePass(sn, spec, InputsAt(c, (spec.recover)(sn.secret), i)) == Moved(sn, spec)
    ensures Provisioned(Moved(sn, spec), spec, c, horizon)
  {
    SteadyTokens(spec.entries, sn.registrations, (spec.recover)(sn.secret), c, i, horizon);
  }

  /** The unit's turn in the i-th pass checks its stored token and calls nothing else. */
  predicate OnlyVerifies(sn: Snapshot, spec: Spec, c: Calm, i: nat, e: Entry)
    requires e.createOptions.Some?
  {
    var tokens := (spec.recover)(sn.secret);
    e.name in tokens && StepOf(e, sn.registrations, tokens, InputsAt(c, tokens, i)).calls == [Verify(tokens[e.name])]
  }

  /** And GitLab is asked for nothing but to verify its tokens. */
  lemma ProvisionedPassOnlyVerifies(sn: Snapshot, spec: Spec, c: Calm, i: nat, horizon: nat, e: Entry)
    requires Provisioned(sn, spec, c, horizon) && i < horizon && HasProvidedTokens(c, spec.entries)
    requires e in spec.entries && e.createOptions.Some?
    ensures OnlyVerifies(sn, spec, c, i, e)
  {
  }

  lemma CalmProvides(c: Calm, entries: seq<Entry>, rs: Registrations, horizon: nat)
    requires IsCalm(c, entries, rs, horizon)
    ensures HasProvidedTokens(c, entries)
  {
    forall i | 0 <= i < |entries| && entries[i].createOptions.None?
      ensures (c.provided)(entries[i].name) != ""
    {
      assert UnitIsCalm(c, entries[i], rs, horizon);
    }
  }

  /** Two passes provision an object, the first of which may only set the finalizer. */
  lemma TwoPassesProvision(sn: Snapshot, spec: Spec, c: Calm, horizon: nat)
    requires RoundTrips(spec) && WellFormedFor(spec, sn.registrations) && IsCalm(c, spec.entries, sn.registrations, horizon) && 2 <= horizon
    ensures Provisioned(CalmPass(CalmPass(sn, spec, c, 0), spec, c, 1), spec, c, horizon)
  {
    var next := CalmPass(sn, spec, c, 0);
    if sn.finalizer {
      CalmProvides(c, spec.entries, sn.registrations, horizon);
      FirstPassProvisions(sn, spec, c, 0, horizon);
      ProvisionedPass(next, spec, c, 1, horizon);
    } else {
      FirstPassProvisions(next, spec, c, 1, horizon);
    }
  }

  lemma ProvisionedAfterTwo(run: seq<Snapshot>, spec: Spec, c: Calm, horizon: nat)
    requires |run| >= 3 && IsRun(run, spec, c)
    requires RoundTrips(spec) && WellFormedFor(spec, run[0].registrations)
    requires IsCalm(c, spec.entries, run[0].registrations, horizon) && 2 <= horizon
    ensures Provisioned(run[2], spec, c, horizon)
  {
    assert run[1] == NextAt(run, 1, spec, c) && run[2] == NextAt(run, 2, spec, c);
    TwoPassesProvision(run[0], spec, c, horizon);
  }

  lemma ProvisionedStep(before: Snapshot, after: Snapshot, spec: Spec, c: Calm, i: nat, horizon: nat)
    requires Provisioned(before, spec, c, horizon) && HasProvidedTokens(c, spec.entries) && i < horizon
    requires CalmPass(before, spec, c, i) == after
    ensures Moved(before, spec) == after
    ensures Provisioned(after, spec, c, horizon)
  {
    ProvisionedPass(before, spec, c, i, horizon);
  }

  /** The k-th pass after the object is provisioned. */
  function MovedTimes(sn: Snapshot, spec: Spec, k: nat): Snapshot {
    if k == 0 then sn else Moved(MovedTimes(sn, spec, k - 1), spec)
  }

  lemma OneMoreMove(sn: Snapshot, spec: Spec, k: nat, before: Snapshot, after: Snapshot)
    requires k > 0 && before == MovedTimes(sn, spec, k - 1) && Moved(before, spec) == after
    ensures after == MovedTimes(sn, spec, k)
  {
  }

  lemma {:induction false} ProvisionedRun(run: seq<Snapshot>, spec: Spec, c: Calm, i: nat, horizon: nat)
    requires 2 <= i < |run| && IsRun(run, spec, c) && i <= horizon
    requires Provisioned(run[2], spec, c, horizon) && HasProvidedTokens(c, spec.entries)
    ensures run[i] == MovedTimes(run[2], spec, i - 2)
    ensures Provisioned(run[i], spec, c, horizon)
    decreases i
  {
    if i > 2 {
      ProvisionedRun(run, spec, c, i - 1, horizon);
      var before, after := run[i - 1], run[i];
      assert after == NextAt(run, i, spec, c);
      ProvisionedStep(before, after, spec, c, i - 1, horizon);
      OneMoreMove(run[2], spec, i - 2, before, after);
    }
  }

  lemma {:induction false} MovedIsSync(sn: Snapshot, spec: Spec, k: nat)
    requires k >= 1
    ensures
      var wanted := WantedOf(spec, (spec.recover)(sn.secret));
      var d := SyncAgain(Sync(sn.deployment, wanted, spec.admit), wanted, spec.admit, k - 1);
      MovedTimes(sn, spec, k) == sn.(ready := d.1.Settled?, deployment := Some(d.0))
    decreases k
  {
    if k == 1 {
      assert MovedTimes(sn, spec, 0) == sn;
    } else {
      MovedIsSync(sn, spec, k - 1);
    }
  }

  /** Two moves settle the Deployment for good. */
  lemma MovedTwice(sn: Snapshot, spec: Spec, k: nat)
    requires k >= 2 && forall d: Deployment :: AnnotationsKept(d, (spec.admit)(d))
    ensures MovedTimes(sn, spec, k) == MovedTimes(sn, spec, 2) && MovedTimes(sn, spec, k).ready
  {
    var wanted := WantedOf(spec, (spec.recover)(sn.secret));
    MovedIsSync(sn, spec, k);
    MovedIsSync(sn, spec, 2);
    assert AnnotationsKept(wanted, (spec.admit)(wanted));
    SettlesByTheSecondCall(sn.deployment, wanted, spec.admit, k - 1);
    SettlesByTheSecondCall(sn.deployment, wanted, spec.admit, 1);
  }

  lemma RunIsProvisioned(run: seq<Snapshot>, spec: Spec, c: Calm, n: nat)
    requires 2 <= n < |run| && IsRun(run, spec, c)
    requires RoundTrips(spec) && WellFormedFor(spec, run[0].registrations) && IsCalm(c, spec.entries, run[0].registrations, |run| - 1)
    ensures HasProvidedTokens(c, spec.entries)
    ensures Provisioned(run[2], spec, c, |run| - 1) && Provisioned(run[n], spec, c, |run| - 1)
    ensures run[n] == MovedTimes(run[2], spec, n - 2)
  {
    CalmProvides(c, spec.entries, run[0].registrations, |run| - 1);
    ProvisionedAfterTwo(run, spec, c, |run| - 1);
    ProvisionedRun(run, spec, c, n, |run| - 1);
  }

  lemma ReadyFromTheFourth(run: seq<Snapshot>, spec: Spec, c: Calm, n: nat)
    requires 4 <= n < |run| && IsRun(run, spec, c)
    requires RoundTrips(spec) && WellFormedFor(spec, run[0].registrations) && IsCalm(c, spec.entries, run[0].registrations, |run| - 1)
    requires forall d: Deployment :: AnnotationsKept(d, (spec.admit)(d))
    ensures run[n] == MovedTimes(run[2], spec, 2) && run[n].ready
  {
    RunIsProvisioned(run, spec, c, n);
    MovedTwice(run[2], spec, n - 2);
  }

  /** From any Secret, any Deployment and any registrations, four fault-free passes make the
      object ready, and no later pass changes anything: against any cluster that keeps the two
      annotations, whatever else it does to the Deployment. */
  lemma ReadyWithinFourPasses(run: seq<Snapshot>, spec: Spec, c: Calm)
    requires |run| > 4 && IsRun(run, spec, c)
    requires UsesConfigSecret(spec) && WellFormedFor(spec, run[0].registrations) && IsCalm(c, spec.entries, run[0].registrations, |run| - 1)
    requires forall d: Deployment :: AnnotationsKept(d, (spec.admit)(d))
    ensures run[4].ready
    ensures forall n | 4 <= n < |run| :: run[n] == run[4]
  {
    ConfigSecretRoundTrips(spec);
    ReadyFromTheFourth(run, spec, c, 4);
    forall n | 4 <= n < |run|
      ensures run[n] == run[4]
    {
      ReadyFromTheFourth(run, spec, c, n);
    }
  }

  /** Three do not suffice for an object that starts out with nothing. */
  lemma ThreePassesAreNotEnough(run: seq<Snapshot>, spec: Spec, c: Calm)
    requires |run| > 3 && IsRun(run, spec, c)
    requires !run[0].finalizer && run[0].secret.None? && run[0].deployment.None?
    ensures !run[3].ready
  {
    assert run[1] == NextAt(run, 1, spec, c) && run[2] == NextAt(run, 2, spec, c) && run[3] == NextAt(run, 3, spec, c);
  }

  /** And from the third pass on GitLab is asked for nothing but to verify tokens. */
  lemma LaterPassesOnlyVerify(run: seq<Snapshot>, spec: Spec, c: Calm, n: nat, e: Entry)
    requires 2 <= n < |run| - 1 && IsRun(run, spec, c)
    requires UsesConfigSecret(spec) && WellFormedFor(spec, run[0].registrations) && IsCalm(c, spec.entries, run[0].registrations, |run| - 1)
    requires e in spec.entries && e.createOptions.Some?
    ensures OnlyVerifies(run[n], spec, c, n, e)
  {
    ConfigSecretRoundTrips(spec);
    RunIsProvisioned(run, spec, c, n);
    ProvisionedPassOnlyVerifies(run[n], spec, c, n, |run| - 1, e);
  }
}
