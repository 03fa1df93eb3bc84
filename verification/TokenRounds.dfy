/** How long managed tokens have to live when the controller looks at them, over runs of
    passes in which units come and go. Times and durations are in seconds. */
module TokenRounds {
  import opened ManagedRunner
  import opened RunnerObject
  import opened TokenRefresh
  import opened EnsureRunners

  /** One pass over the units the spec has at the time: the tokens its Secret yielded, each
      unit's input, when it started and when it computed the next look. */
  datatype Round = Round(entries: seq<Entry>, recovered: map<string, string>, inputs: Inputs, start: int, clock: int)

  /** The registrations before the n-th round. */
  function RegistrationsAt(rs: Registrations, rounds: seq<Round>, n: nat): Registrations
    requires n <= |rounds|
  {
    if n == 0 then rs
    else
      var r := rounds[n - 1];
      RecordAll(r.entries, RegistrationsAt(rs, rounds, n - 1), r.recovered, r.inputs)
  }

  /** No unit fails, and the units' checks take at most `d` seconds from the start on. */
  predicate Succeeds(rs: Registrations, r: Round, d: int) {
    && UniqueNames(r.entries) && (rs.One? ==> |r.entries| <= 1)
    && (forall e | e in r.entries :: TurnOf(e, rs, r.recovered, r.inputs).Some?)
    && (forall e | e in r.entries :: r.start <= r.inputs(e.name).now <= r.clock)
    && r.clock <= r.start + d
  }

  /** The round starts within the interval the one before it returned. */
  ghost predicate OnTime(rs: Registrations, r: Round, next: Round) {
    exists soonest :: SoonestOf(r.entries, rs, r.recovered, r.inputs, soonest)
                      && (soonest.None? || next.start <= r.clock + ResyncAfter(soonest, r.clock))
  }

  predicate SucceedsAt(rs: Registrations, rounds: seq<Round>, i: nat, d: int)
    requires i < |rounds|
  {
    Succeeds(RegistrationsAt(rs, rounds, i), rounds[i], d)
  }

  ghost predicate OnTimeAt(rs: Registrations, rounds: seq<Round>, i: nat)
    requires 0 < i < |rounds|
  {
    OnTime(RegistrationsAt(rs, rounds, i - 1), rounds[i - 1], rounds[i])
  }

  ghost predicate IsRun(rs: Registrations, rounds: seq<Round>, d: int) {
    && (forall i {:trigger SucceedsAt(rs, rounds, i, d)} | 0 <= i < |rounds| :: SucceedsAt(rs, rounds, i, d))
    && (forall i {:trigger OnTimeAt(rs, rounds, i)} | 0 < i < |rounds| :: OnTimeAt(rs, rounds, i))
  }

  /** New tokens last at least a day from when they are issued. */
  predicate IssuesLongTokens(r: Round) {
    forall e | e in r.entries && e.createOptions.Some? ::
      !NearExpiry(r.inputs(e.name).answers.created.expiresAt, r.inputs(e.name).now)
  }

  /** The registration a unit leaves a round with is its own turn's, and expires with the token
      it was issued. */
  lemma UnitAfterRound(rs: Registrations, r: Round, d: int, e: Entry)
    requires Succeeds(rs, r, d) && e in r.entries && e.createOptions.Some?
    ensures Lookup(RecordAll(r.entries, rs, r.recovered, r.inputs), e.name) == StepOf(e, rs, r.recovered, r.inputs).reg
    ensures StepOf(e, rs, r.recovered, r.inputs).issued.Some?
    ensures StepOf(e, rs, r.recovered, r.inputs).issued.value.expiresAt == StepOf(e, rs, r.recovered, r.inputs).reg.expiresAt
  {
    var k :| 0 <= k < |r.entries| && r.entries[k] == e;
    TurnsAreIndependent(r.entries, rs, r.recovered, r.inputs, k);
    assert TurnOf(e, rs, r.recovered, r.inputs).Some?;
    var input := r.inputs(e.name);
    IssuedStep(Lookup(rs, e.name), if e.name in r.recovered then r.recovered[e.name] else "", e.createOptions.value, input.now, input.answers);
  }

  /** Between two rounds a token loses at most an hour and the time the first one took. */
  lemma RoundLeavesLongTokens(rs: Registrations, r: Round, next: Round, d: int, e: Entry)
    requires Succeeds(rs, r, d) && IssuesLongTokens(r) && OnTime(rs, r, next)
    requires e in r.entries && e.createOptions.Some?
    ensures
      var reg := Lookup(RecordAll(r.entries, rs, r.recovered, r.inputs), e.name);
      reg.expiresAt.Some? ==> reg.expiresAt.value - next.start >= TOKEN_REFRESH_THRESHOLD - MAX_RESYNC_INTERVAL - d
  {
    UnitAfterRound(rs, r, d, e);
    var input := r.inputs(e.name);
    ServedTokenIsLong(Lookup(rs, e.name), if e.name in r.recovered then r.recovered[e.name] else "", e.createOptions.value, input.now, input.answers);
    var soonest :| SoonestOf(r.entries, rs, r.recovered, r.inputs, soonest)
                   && (soonest.None? || next.start <= r.clock + ResyncAfter(soonest, r.clock));
    assert TurnOf(e, rs, r.recovered, r.inputs) == StepOf(e, rs, r.recovered, r.inputs).issued;
  }

  /** With tokens issued for a day or more and every pass on time, a unit that was looked at in
      the pass before has 23 hours less the duration of a pass to live when the next one starts,
      and less two durations when its own turn comes. */
  lemma TokensNeverRunLow(rs: Registrations, rounds: seq<Round>, d: int, n: nat, e: Entry)
    requires IsRun(rs, rounds, d) && 1 <= n < |rounds| && IssuesLongTokens(rounds[n - 1])
    requires e in rounds[n - 1].entries && e.createOptions.Some?
    ensures
      var expiresAt := Lookup(RegistrationsAt(rs, rounds, n), e.name).expiresAt;
      expiresAt.Some? ==>
        && expiresAt.value - rounds[n].start >= 23 * HOUR - d
        && (forall again | again in rounds[n].entries && again.name == e.name ::
              expiresAt.value - rounds[n].inputs(again.name).now >= 23 * HOUR - 2 * d)
  {
    var r, before := rounds[n - 1], RegistrationsAt(rs, rounds, n - 1);
    assert SucceedsAt(rs, rounds, n - 1, d) && SucceedsAt(rs, rounds, n, d) && OnTimeAt(rs, rounds, n);
    RoundLeavesLongTokens(before, r, rounds[n], d, e);
  }

  // ----- tokens that do not last a day -----

  /** The unit is managed in the round and gets a new runner. */
  ghost predicate Creates(rs: Registrations, r: Round, name: string) {
    exists e :: e in r.entries && e.name == name && e.createOptions.Some? && Create in StepOf(e, rs, r.recovered, r.inputs).calls
  }

  predicate ManagedIn(r: Round, name: string) {
    exists e :: e in r.entries && e.name == name && e.createOptions.Some?
  }

  /** What GitLab would issue for the unit in `r` is near expiry by the unit's turn in `later`. */
  predicate ShortLived(r: Round, later: Round, name: string) {
    r.inputs(name).answers.created.id != 0 && NearExpiry(r.inputs(name).answers.created.expiresAt, later.inputs(name).now)
  }

  /** The unit is still managed in the i-th round, and a token issued in the one before is near
      expiry by then. */
  predicate ChurnsAt(rounds: seq<Round>, i: nat, name: string)
    requires 0 < i < |rounds|
  {
    ManagedIn(rounds[i], name) && ShortLived(rounds[i - 1], rounds[i], name)
  }

  /** A runner made in one round, its token near expiry by the next, is replaced in the next. */
  lemma ChurnStep(before: Registrations, last: Round, r: Round, d: int, e: Entry, again: Entry)
    requires Succeeds(before, last, d) && e in last.entries && e.createOptions.Some?
    requires Create in StepOf(e, before, last.recovered, last.inputs).calls
    requires last.inputs(e.name).answers.created.id != 0
    requires NearExpiry(last.inputs(e.name).answers.created.expiresAt, r.inputs(e.name).now)
    requires again in r.entries && again.name == e.name && again.createOptions.Some?
    requires Succeeds(RecordAll(last.entries, before, last.recovered, last.inputs), r, d)
    ensures Create in StepOf(again, RecordAll(last.entries, before, last.recovered, last.inputs), r.recovered, r.inputs).calls
  {
    var now, name := RecordAll(last.entries, before, last.recovered, last.inputs), e.name;
    UnitAfterRound(before, last, d, e);
    CreatedStep(Lookup(before, name), if name in last.recovered then last.recovered[name] else "", e.createOptions.value,
                last.inputs(name).now, last.inputs(name).answers);
    UnitAfterRound(now, r, d, again);
    NearExpiryIsReplaced(Lookup(now, name), if name in r.recovered then r.recovered[name] else "", again.createOptions.value,
                         r.inputs(name).now, r.inputs(name).answers);
  }

  lemma ChurnOnce(before: Registrations, last: Round, r: Round, d: int, name: string)
    requires Succeeds(before, last, d) && Succeeds(RecordAll(last.entries, before, last.recovered, last.inputs), r, d)
    requires Creates(before, last, name) && ManagedIn(r, name) && ShortLived(last, r, name)
    ensures Creates(RecordAll(last.entries, before, last.recovered, last.inputs), r, name)
  {
    var e :| e in last.entries && e.name == name && e.createOptions.Some? && Create in StepOf(e, before, last.recovered, last.inputs).calls;
    var again :| again in r.entries && again.name == name && again.createOptions.Some?;
    ChurnStep(before, last, r, d, e, again);
  }

  /** If GitLab's tokens for a unit never last from one pass to a day after the next, the unit
      gets a new runner in every pass from the first one on, for as long as it is in the spec. */
  lemma {:induction false} ChurnNeverStops(rs: Registrations, rounds: seq<Round>, d: int, m: nat, n: nat, name: string)
    requires IsRun(rs, rounds, d) && m <= n < |rounds|
    requires Creates(RegistrationsAt(rs, rounds, m), rounds[m], name)
    requires forall i {:trigger ChurnsAt(rounds, i, name)} | m < i <= n :: ChurnsAt(rounds, i, name)
    ensures Creates(RegistrationsAt(rs, rounds, n), rounds[n], name)
    decreases n
  {
    if m < n {
      ChurnNeverStops(rs, rounds, d, m, n - 1, name);
      assert SucceedsAt(rs, rounds, n - 1, d) && SucceedsAt(rs, rounds, n, d) && ChurnsAt(rounds, n, name);
      ChurnOnce(RegistrationsAt(rs, rounds, n - 1), rounds[n - 1], rounds[n], d, name);
    }
  }

  lemma CreatedStep(reg: Registration, recovered: string, hash: string, now: int, a: Answers)
    requires EnsureRunner(reg, recovered, hash, now, a).issued.Some? && Create in EnsureRunner(reg, recovered, hash, now, a).calls
    ensures EnsureRunner(reg, recovered, hash, now, a).reg == Registration(a.created.id, hash, a.created.expiresAt)
  {
    IssuedStep(reg, recovered, hash, now, a);
  }
}
