/** When the controller looks at managed tokens again. Times and durations are in seconds. */
module TokenRefresh {
  import opened Common
  import opened ManagedRunner

  const TOKEN_RESYNC_LEAD := 12 * HOUR
  const MAX_RESYNC_INTERVAL := HOUR
  const MIN_RESYNC_INTERVAL := 60

  /** How long until the next look, given the soonest expiry; 0 when there is none to watch. */
  function ResyncAfter(soonest: Option<int>, now: int): int {
    match soonest
    case None => 0
    case Some(expiry) =>
      var d := expiry - TOKEN_RESYNC_LEAD - now;
      var floored := if d < MIN_RESYNC_INTERVAL then MIN_RESYNC_INTERVAL else d;
      if floored > MAX_RESYNC_INTERVAL then MAX_RESYNC_INTERVAL else floored
  }

  /** The interval is zero iff there is no expiry, and else between a minute and an hour. */
  lemma IntervalIsBounded(soonest: Option<int>, now: int)
    ensures ResyncAfter(soonest, now) == 0 <==> soonest.None?
    ensures soonest.Some? ==> MIN_RESYNC_INTERVAL <= ResyncAfter(soonest, now) <= MAX_RESYNC_INTERVAL
  {
  }

  /** Within these bounds, the next look comes as close as can be to twelve hours before expiry. */
  lemma LookIsClosest(expiry: int, now: int, other: int)
    requires 60 <= other <= 3600
    ensures var ideal := expiry - 12 * 3600 - now; Distance(ResyncAfter(Some(expiry), now), ideal) <= Distance(other, ideal)
  {
  }

  function Distance(x: int, y: int): int {
    if x < y then y - x else x - y
  }

  /** The hour cap decides whenever at least 13 hours are left, so for tokens that passed the
      24-hour test neither the 12-hour lead nor the one-minute floor ever shows. */
  lemma AnHourIff(expiry: int, now: int)
    ensures ResyncAfter(Some(expiry), now) == MAX_RESYNC_INTERVAL <==> expiry - now >= TOKEN_RESYNC_LEAD + MAX_RESYNC_INTERVAL
    ensures !NearExpiry(Some(expiry), now) ==> ResyncAfter(Some(expiry), now) == MAX_RESYNC_INTERVAL
  {
  }

  /** A unit that got through a pass has a day to go, unless GitLab issues shorter tokens. */
  lemma ServedTokenIsLong(reg: Registration, recovered: string, hash: string, now: int, a: Answers)
    requires EnsureRunner(reg, recovered, hash, now, a).issued.Some? && !NearExpiry(a.created.expiresAt, now)
    ensures !NearExpiry(EnsureRunner(reg, recovered, hash, now, a).reg.expiresAt, now)
  {
  }

  /** A token that is near expiry makes a successful pass create a runner. */
  lemma NearExpiryIsReplaced(reg: Registration, recovered: string, hash: string, now: int, a: Answers)
    requires reg.runnerId != 0 && NearExpiry(reg.expiresAt, now)
    requires EnsureRunner(reg, recovered, hash, now, a).issued.Some?
    ensures Create in EnsureRunner(reg, recovered, hash, now, a).calls
  {
  }
}
