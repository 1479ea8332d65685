/**
 * The active-hours gate (`is_in_active_hours`, app.py:144-148). The time of
 * day is passed in as microseconds since midnight, the resolution of Python's
 * `datetime.time`, so the source's exact comparisons carry over unchanged.
 * The cycle does not consult this gate.
 */
module ActiveHours {

  const MicrosPerSecond: int := 1000000
  const MicrosPerDay: int := 24 * 60 * 60 * MicrosPerSecond

  /** A time of day, as `datetime.time` holds it. */
  predicate IsClock(h: int, m: int, s: int, us: int) {
    0 <= h < 24 && 0 <= m < 60 && 0 <= s < 60 && 0 <= us < MicrosPerSecond
  }

  /** Microseconds since midnight of `h:m:s.us`. */
  function Clock(h: int, m: int, s: int, us: int): (t: int)
    requires IsClock(h, m, s, us)
    ensures 0 <= t < MicrosPerDay
  {
    ((h * 60 + m) * 60 + s) * MicrosPerSecond + us
  }

  /**
   * Active when 11:00 <= t <= 19:00, or t >= 22:30, or t <= 06:30, every
   * bound inclusive. Equivalently, inactive exactly in the two open gaps
   * (06:30, 11:00) and (19:00, 22:30).
   */
  function IsInActiveHours(t: int): (active: bool)
    requires 0 <= t < MicrosPerDay
    ensures !active <==> (Clock(6, 30, 0, 0) < t < Clock(11, 0, 0, 0))
                         || (Clock(19, 0, 0, 0) < t < Clock(22, 30, 0, 0))
  {
    (Clock(11, 0, 0, 0) <= t <= Clock(19, 0, 0, 0))
    || (t >= Clock(22, 30, 0, 0) || t <= Clock(6, 30, 0, 0))
  }

  /** Comparing clock readings as microseconds is comparing them field by field. */
  lemma {:induction false} ClockOrder(h: int, m: int, s: int, us: int, h': int, m': int, s': int, us': int)
    requires IsClock(h, m, s, us) && IsClock(h', m', s', us')
    ensures Clock(h, m, s, us) < Clock(h', m', s', us') <==>
            h < h' || (h == h' && (m < m' || (m == m' && (s < s' || (s == s' && us < us')))))
  {
    var a := (h * 60 + m) * 60 + s;
    var b := (h' * 60 + m') * 60 + s';
    assert Clock(h, m, s, us) == a * 1000000 + us;
    assert Clock(h', m', s', us') == b * 1000000 + us';
    assert Clock(h, m, s, us) < Clock(h', m', s', us') <==> a < b || (a == b && us < us');
    assert a < b <==> h * 60 + m < h' * 60 + m' || (h * 60 + m == h' * 60 + m' && s < s');
    assert h * 60 + m < h' * 60 + m' <==> h < h' || (h == h' && m < m');
  }

  /** The boundary readings: 19:00:00 is active, one microsecond later is not. */
  lemma Boundaries()
    ensures IsInActiveHours(Clock(19, 0, 0, 0))
    ensures !IsInActiveHours(Clock(19, 0, 0, 1))
    ensures !IsInActiveHours(Clock(22, 29, 0, 0))
    ensures IsInActiveHours(Clock(22, 30, 0, 0))
    ensures IsInActiveHours(Clock(6, 30, 0, 0))
    ensures !IsInActiveHours(Clock(6, 30, 0, 1))
    ensures IsInActiveHours(Clock(11, 0, 0, 0))
    ensures !IsInActiveHours(Clock(10, 59, 59, 999999))
  {
  }
}
