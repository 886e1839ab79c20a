/**
 * Millisecond instants and the date-fns arithmetic the core relies on.
 * Local time is UTC shifted by a fixed offset; daylight saving time is not modelled.
 */
module Time {

  const MINUTE_MS: int := 60000
  const HOUR_MS: int := 3600000
  const DAY_MS: int := 86400000

  /**
   * date-fns `differenceInMinutes(later, earlier)`: whole minutes, truncated toward zero.
   * Dafny's `/` floors for a positive divisor, so negative differences are handled apart.
   */
  function MinutesBetween(later: int, earlier: int): (m: int)
    ensures later >= earlier ==> 0 <= m && m * MINUTE_MS <= later - earlier < (m + 1) * MINUTE_MS
    ensures later < earlier ==> m <= 0 && (m - 1) * MINUTE_MS < later - earlier <= m * MINUTE_MS
  {
    var d := later - earlier;
    if d >= 0 then d / MINUTE_MS else -((-d) / MINUTE_MS)
  }

  /** Swapping the two instants negates the result, as truncation is symmetric about zero. */
  lemma {:induction false} MinutesBetweenAntisymmetric(a: int, b: int)
    ensures MinutesBetween(a, b) == -MinutesBetween(b, a)
  {
  }

  /** A later first argument never gives fewer minutes. */
  lemma {:induction false} MinutesBetweenMonotone(a: int, a': int, b: int)
    requires a <= a'
    ensures MinutesBetween(a, b) <= MinutesBetween(a', b)
  {
  }

  /** A later second argument never gives more minutes. */
  lemma {:induction false} MinutesBetweenAntitone(a: int, b: int, b': int)
    requires b <= b'
    ensures MinutesBetween(a, b') <= MinutesBetween(a, b)
  {
  }

  /** Milliseconds since local midnight. */
  function LocalTimeOfDay(t: int, utcOffsetMs: int): (r: int)
    ensures 0 <= r < DAY_MS
  {
    (t + utcOffsetMs) % DAY_MS
  }

  /** `Date.getHours()` in the fixed local zone. */
  function LocalHour(t: int, utcOffsetMs: int): (h: int)
    ensures 0 <= h < 24
  {
    LocalTimeOfDay(t, utcOffsetMs) / HOUR_MS
  }

  /** The instant of local midnight on the calendar day of `t`. */
  function LocalDayStart(t: int, utcOffsetMs: int): (d: int)
    ensures d <= t < d + DAY_MS
    ensures (d + utcOffsetMs) % DAY_MS == 0
  {
    t - LocalTimeOfDay(t, utcOffsetMs)
  }

  /**
   * `Date.setHours(h, 0, 0, 0)`: hour `h` of the same local calendar day
   * (an hour of 24 or more rolls into the following days, as in JavaScript).
   */
  function SetHours(t: int, h: nat, utcOffsetMs: int): int
  {
    LocalDayStart(t, utcOffsetMs) + h * HOUR_MS
  }

  /** `setHours(h, 0, 0, 0)` always lands on a whole local hour, so a following `startOfHour` changes nothing. */
  lemma {:induction false} SetHoursWholeHour(t: int, h: nat, utcOffsetMs: int)
    ensures (SetHours(t, h, utcOffsetMs) + utcOffsetMs) % HOUR_MS == 0
  {
    var d := LocalDayStart(t, utcOffsetMs);
    var k := (d + utcOffsetMs) / DAY_MS;
    assert d + utcOffsetMs == k * DAY_MS;
    assert SetHours(t, h, utcOffsetMs) + utcOffsetMs == (k * 24 + h) * HOUR_MS;
  }

  /** For an hour of the day, the instant set is on that local hour. */
  lemma {:induction false} SetHoursOnHour(t: int, h: nat, utcOffsetMs: int)
    requires h < 24
    ensures LocalHour(SetHours(t, h, utcOffsetMs), utcOffsetMs) == h
  {
    var d := LocalDayStart(t, utcOffsetMs);
    var k := (d + utcOffsetMs) / DAY_MS;
    assert d + utcOffsetMs == k * DAY_MS;
    var s := SetHours(t, h, utcOffsetMs);
    assert s + utcOffsetMs == k * DAY_MS + h * HOUR_MS;
    assert (k * DAY_MS + h * HOUR_MS) % DAY_MS == h * HOUR_MS;
  }

  /** An hour no later than the current local hour gives an instant no later than `t`. */
  lemma {:induction false} SetHoursNotLater(t: int, h: nat, utcOffsetMs: int)
    requires h <= LocalHour(t, utcOffsetMs)
    ensures SetHours(t, h, utcOffsetMs) <= t
  {
  }

  /** A later hour of the day than the current local hour gives an instant after `t`. */
  lemma {:induction false} SetHoursLater(t: int, h: nat, utcOffsetMs: int)
    requires LocalHour(t, utcOffsetMs) < h
    ensures t < SetHours(t, h, utcOffsetMs)
  {
  }
}
