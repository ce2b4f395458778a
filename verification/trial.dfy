/**
  The trial policy: from an account's balance, its creation time and the
  current time, whether the account may still consume tokens and how many
  whole days of the trial are left.
 */
module Trial {
  import opened Config

  /** The dictionary returned by `get_user_token_status`. */
  datatype Status = Status(tokens: int, daysRemaining: int, isActive: bool, hasTokens: bool)

  /**
    Whole days elapsed between two timestamps, rounded towards minus
    infinity like `timedelta.days` (Dafny's `/` is Euclidean, which is floor
    division for a positive divisor).
   */
  function DaysElapsed(createdAt: int, now: int): (d: int)
    ensures d * SecondsPerDay <= now - createdAt < (d + 1) * SecondsPerDay
  {
    (now - createdAt) / SecondsPerDay
  }

  /** `max(0, TRIAL_DAYS - days)` */
  function DaysRemaining(elapsed: int): int
  {
    if TrialDays - elapsed > 0 then TrialDays - elapsed else 0
  }

  /** The status as database.py computes it: active while fewer than three whole days have passed. */
  function StatusOf(tokens: int, createdAt: int, now: int): (s: Status)
    ensures s.tokens == tokens
    ensures s.hasTokens <==> tokens > 0
    ensures s.isActive <==> now - createdAt < TrialDays * SecondsPerDay
    ensures s.isActive <==> s.daysRemaining > 0
    ensures s.daysRemaining >= 0
    ensures now - createdAt >= 0 ==> s.daysRemaining <= TrialDays
    ensures now - createdAt < 0 ==> s.daysRemaining > TrialDays
    ensures s.isActive ==>
              (TrialDays - s.daysRemaining) * SecondsPerDay <= now - createdAt
              < (TrialDays - s.daysRemaining + 1) * SecondsPerDay
  {
    var d := DaysElapsed(createdAt, now);
    Status(tokens, DaysRemaining(d), d < TrialDays, tokens > 0)
  }

  /**
    The status as the copy of the store in bot.py computes it: active while
    the remaining day count is positive. It agrees with `StatusOf` on every
    input.
   */
  function BotStatusOf(tokens: int, createdAt: int, now: int): (s: Status)
    ensures s == StatusOf(tokens, createdAt, now)
  {
    var remaining := DaysRemaining(DaysElapsed(createdAt, now));
    Status(tokens, remaining, remaining > 0, tokens > 0)
  }

  /** Once the trial is over it stays over, whatever the balance. */
  lemma ExpiryIsPermanent(tokens: int, tokens': int, createdAt: int, now: int, later: int)
    requires now <= later
    requires !StatusOf(tokens, createdAt, now).isActive
    ensures !StatusOf(tokens', createdAt, later).isActive
    ensures StatusOf(tokens', createdAt, later).daysRemaining == 0
  {
  }

  /** The boundary cases of the trial window. */
  lemma TrialBoundaries(tokens: int, now: int)
    ensures StatusOf(tokens, now, now).isActive
    ensures StatusOf(tokens, now, now).daysRemaining == TrialDays
    ensures StatusOf(tokens, now - (2 * SecondsPerDay + 23 * 3600), now).isActive
    ensures StatusOf(tokens, now - (2 * SecondsPerDay + 23 * 3600), now).daysRemaining == 1
    ensures !StatusOf(tokens, now - TrialDays * SecondsPerDay, now).isActive
    ensures !StatusOf(tokens, now - 4 * SecondsPerDay, now).isActive
  {
  }
}
