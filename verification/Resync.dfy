/** When a pass asks to be called again, and how long tokens have to live then. */
module Resync {
  import opened Common
  import opened Rbac
  import opened ManagedRunner
  import opened RunnerObject
  import opened EnsureRunners
  import opened TokenRefresh
  import opened ConfigSecret
  import opened Reconcile
  import TokenRounds

  /** A pass with its beginning, and the units its spec had. */
  datatype Look = Look(a: View, b: View, o: Rbac.Owner, entries: seq<Entry>, w: World, t: Summary, q: Requeue, start: int)

  /** It passed, over an object read fresh and well formed. */
  ghost predicate IsLook(p: Look) {
    && Passed(p.a, p.b, p.o, p.entries, p.w, p.t, p.q)
    && UniqueNames(p.entries) && (p.a.status.registrations.One? ==> |p.entries| <= 1)
  }

  /** The expiries a pass leaves in status are those of the tokens it issued. */
  lemma TurnExpiry(entries: seq<Entry>, rs: Registrations, known: Data, inputs: Inputs, e: Entry)
    requires UniqueNames(entries) && (rs.One? ==> |entries| <= 1) && e in entries && TurnOf(e, rs, known, inputs).Some?
    ensures TurnOf(e, rs, known, inputs).value.expiresAt ==
            if e.createOptions.Some? then Lookup(RecordAll(entries, rs, known, inputs), e.name).expiresAt else None
  {
    if e.createOptions.Some? {
      var k :| 0 <= k < |entries| && entries[k] == e;
      TurnsAreIndependent(entries, rs, known, inputs, k);
      IssuedStep(Lookup(rs, e.name), if e.name in known then known[e.name] else "", e.createOptions.value,
                 inputs(e.name).now, inputs(e.name).answers);
    }
  }

  /** The registration expires, and none of the managed entries' before it. */
  ghost predicate ExpiresFirst(entries: seq<Entry>, rs: Registrations, e: Entry) {
    && e in entries && e.createOptions.Some? && Lookup(rs, e.name).expiresAt.Some?
    && forall other | other in entries && other.createOptions.Some? && Lookup(rs, other.name).expiresAt.Some? ::
         Lookup(rs, e.name).expiresAt.value <= Lookup(rs, other.name).expiresAt.value
  }

  ghost predicate NothingExpires(entries: seq<Entry>, rs: Registrations) {
    forall e | e in entries && e.createOptions.Some? :: Lookup(rs, e.name).expiresAt.None?
  }

  lemma SoonestExpiresFirst(entries: seq<Entry>, rs: Registrations, known: Data, inputs: Inputs, tokens: Data, soonest: Option<int>)
    returns (e: Option<Entry>)
    requires UniqueNames(entries) && (rs.One? ==> |entries| <= 1)
    requires TokensOf(entries, rs, known, inputs, tokens) && SoonestOf(entries, rs, known, inputs, soonest)
    ensures var after := RecordAll(entries, rs, known, inputs);
            if soonest.None? then e.None? && NothingExpires(entries, after)
            else e.Some? && ExpiresFirst(entries, after, e.value) && Lookup(after, e.value.name).expiresAt == soonest
  {
    forall other | other in entries
      ensures TurnOf(other, rs, known, inputs).Some?
      ensures TurnOf(other, rs, known, inputs).value.expiresAt ==
              if other.createOptions.Some? then Lookup(RecordAll(entries, rs, known, inputs), other.name).expiresAt else None
    {
      var k :| 0 <= k < |entries| && entries[k] == other;
      TurnExpiry(entries, rs, known, inputs, other);
    }
    if soonest.None? {
      e := None;
    } else {
      var first :| first in entries && TurnOf(first, rs, known, inputs).Some?
                   && TurnOf(first, rs, known, inputs).value.expiresAt == soonest;
      e := Some(first);
    }
  }

  lemma LookServes(p: Look)
    requires IsLook(p) && p.t.served
    ensures TokensOf(p.entries, p.a.status.registrations, TokensIn(p.a.secret), p.w.inputs, p.t.tokens)
    ensures SoonestOf(p.entries, p.a.status.registrations, TokensIn(p.a.secret), p.w.inputs, p.t.soonest)
    ensures p.b.status.registrations == RecordAll(p.entries, p.a.status.registrations, TokensIn(p.a.secret), p.w.inputs)
    ensures !p.t.refused && p.q == Answer(p.t, p.b.status.ready, p.w.clock)
  {
  }

  lemma ReadyIsServed(p: Look)
    requires IsLook(p) && p.b.status.ready
    ensures p.t.served && p.t.bound && p.t.applied
  {
  }

  /** A ready object waits for ever exactly when no managed registration expires; otherwise it comes
      back after the interval that the first one to expire gives, a minute to an hour from then. */
  lemma ReadyAnswers(p: Look)
    requires IsLook(p) && p.b.status.ready
    ensures p.q.Never? <==> NothingExpires(p.entries, p.b.status.registrations)
    ensures !p.q.Never? ==>
              exists e :: ExpiresFirst(p.entries, p.b.status.registrations, e)
                          && p.q == After(ResyncAfter(Lookup(p.b.status.registrations, e.name).expiresAt, p.w.clock))
    ensures p.q.Never? || (p.q.After? && 60 <= p.q.seconds <= 3600)
  {
    hide Passed;
    ReadyIsServed(p);
    LookServes(p);
    var e := SoonestExpiresFirst(p.entries, p.a.status.registrations, TokensIn(p.a.secret), p.w.inputs, p.t.tokens, p.t.soonest);
    IntervalIsBounded(p.t.soonest, p.w.clock);
  }

  /** One that is not ready is never left alone, unless it is refused, and is looked at again at once
      exactly when RBAC was completed and a write of Secret or Deployment succeeded. */
  lemma UnreadyAnswers(p: Look)
    requires IsLook(p) && !p.b.status.ready
    ensures p.q.Never? <==> p.t.refused
    ensures p.q.Now? <==> p.t.bound && p.t.applied
    ensures p.q.Never? || p.q.Now? || p.q.AfterTimeout?
  {
  }

  /** The next pass starts within the answer of this one; what was to come back at once or after the
      default timeout may take a minute. */
  predicate InAnswer(p: Look, next: int) {
    match p.q
    case Never => true
    case Now => next <= p.w.clock + 60
    case AfterTimeout => next <= p.w.clock + 60
    case After(seconds) => next <= p.w.clock + seconds
  }

  function RoundOf(p: Look): TokenRounds.Round {
    TokenRounds.Round(p.entries, TokensIn(p.a.secret), p.w.inputs, p.start, p.w.clock)
  }

  /** A pass that starts within the answer of one that served all units is on time for their tokens. */
  lemma AnswersAreOnTime(p: Look, next: TokenRounds.Round)
    requires IsLook(p) && p.t.served && InAnswer(p, next.start)
    ensures TokenRounds.OnTime(p.a.status.registrations, RoundOf(p), next)
  {
    LookServes(p);
    IntervalIsBounded(p.t.soonest, p.w.clock);
    assert SoonestOf(p.entries, p.a.status.registrations, TokensIn(p.a.secret), p.w.inputs, p.t.soonest);
  }

  /** The checks of the units take at most `d` seconds from the start. */
  predicate Takes(p: Look, d: int) {
    (forall e | e in p.entries :: p.start <= p.w.inputs(e.name).now <= p.w.clock) && p.w.clock <= p.start + d
  }

  /** So with tokens issued for a day or more, a managed token served in one pass has 23 hours less
      the duration of a pass to live when the next one starts, whatever happened in between, and
      less two durations at the unit's own turn. */
  lemma AnswersKeepTokensAlive(p: Look, next: Look, d: int, e: Entry)
    requires IsLook(p) && p.t.served && Takes(p, d) && TokenRounds.IssuesLongTokens(RoundOf(p))
    requires InAnswer(p, next.start) && Takes(next, d)
    requires e in p.entries && e.createOptions.Some?
    ensures
      var expiresAt := Lookup(p.b.status.registrations, e.name).expiresAt;
      expiresAt.Some? ==>
        && expiresAt.value - next.start >= 23 * HOUR - d
        && (forall again | again in next.entries && again.name == e.name ::
              expiresAt.value - next.w.inputs(again.name).now >= 23 * HOUR - 2 * d)
  {
    hide Passed;
    AnswersAreOnTime(p, RoundOf(next));
    LookServes(p);
    forall e | e in p.entries
      ensures TurnOf(e, p.a.status.registrations, TokensIn(p.a.secret), p.w.inputs).Some?
    {
      var k :| 0 <= k < |p.entries| && p.entries[k] == e;
    }
    TokenRounds.RoundLeavesLongTokens(p.a.status.registrations, RoundOf(p), RoundOf(next), d, e);
  }
}
