/** Expiry arithmetic over clock readings in milliseconds since the epoch.
    The clock reading (`Date.now()`) is a parameter. */
module DateTime {

  const MillisPerMinute: int := 60 * 1000
  const MillisPerDay: int := 24 * 60 * MillisPerMinute

  /** `thirtyDaysFromNow`, for the clock reading `now`. */
  function ThirtyDaysFromNow(now: int): (expiry: int)
    ensures expiry - now == 2592000000
    ensures expiry > now
  {
    now + 30 * MillisPerDay
  }

  /** `minutesFromNow` is imported by the auth service but defined nowhere in
      the date utilities; this model assumes it adds `m` whole minutes. */
  function MinutesFromNow(now: int, m: int): (t: int)
    ensures t - now == m * 60000
    ensures m > 0 ==> t > now
  {
    now + m * MillisPerMinute
  }

  /** A later reading gives a later expiry, by the same offset. */
  lemma ThirtyDaysMonotone(now1: int, now2: int)
    ensures now1 <= now2 <==> ThirtyDaysFromNow(now1) <= ThirtyDaysFromNow(now2)
    ensures ThirtyDaysFromNow(now2) - ThirtyDaysFromNow(now1) == now2 - now1
  {
  }
}
