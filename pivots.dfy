/**
 * Pivot levels (`calculate_pivot_levels`, app.py:115-131) and the proximity
 * test (`is_near_pivot_level`, app.py:134-141). Python computes the levels in
 * floating point; here they are exact reals.
 */
module Pivots {
  import opened Wrappers
  import opened DailyAggregate
  import opened Numbers

  /** The five derived levels, in the insertion order of the source's dictionary. */
  datatype PivotLevels = PivotLevels(pivot: real, r1: real, s1: real, r2: real, s2: real)

  /** The default proximity threshold used by the cycle (app.py:184). */
  const NearThreshold: int := 300

  /** The classic floor-trader formula over one day's high, low and close. */
  function LevelsOf(d: DailyRecord): (l: PivotLevels)
    ensures 3.0 * l.pivot == (d.high + d.low + d.close) as real
    ensures l.r1 - l.pivot == l.pivot - d.low as real
    ensures l.pivot - l.s1 == d.high as real - l.pivot
    ensures l.r2 - l.pivot == l.pivot - l.s2 == (d.high - d.low) as real
  {
    var p := (d.high + d.low + d.close) as real / 3.0;
    PivotLevels(p, 2.0 * p - d.low as real, 2.0 * p - d.high as real,
                p + (d.high - d.low) as real, p - (d.high - d.low) as real)
  }

  /** The levels for `today`, or None when `today` has no record yet. */
  function CalculatePivotLevels(m: DailyMap, today: string): (r: Option<PivotLevels>)
    ensures r.None? <==> today !in m
    ensures today in m ==> r == Some(LevelsOf(m[today]))
  {
    if today !in m then None else Some(LevelsOf(m[today]))
  }

  /** The values of the levels dictionary, in iteration order. */
  function Values(l: PivotLevels): (vs: seq<real>)
    ensures |vs| == 5
    ensures l.pivot in vs && l.r1 in vs && l.s1 in vs && l.r2 in vs && l.s2 in vs
  {
    [l.pivot, l.r1, l.s1, l.r2, l.s2]
  }

  /** The levels as the dictionary the proximity test receives (None stays None). */
  function AsDict(levels: Option<PivotLevels>): (r: Option<seq<real>>)
    ensures levels.None? <==> r.None?
    ensures levels.Some? ==> r == Some(Values(levels.value))
  {
    match levels
    case None => None
    case Some(l) => Some(Values(l))
  }

  /** `abs(price - val) <= threshold`: the bound is inclusive. */
  predicate Within(price: int, level: real, threshold: int) {
    RealAbs(price as real - level) <= threshold as real
  }

  /** Reference meaning of proximity: some level lies within the threshold. */
  predicate NearPivot(price: int, levels: Option<seq<real>>, threshold: int) {
    levels.Some? && exists i :: 0 <= i < |levels.value| && Within(price, levels.value[i], threshold)
  }

  /**
   * `is_near_pivot_level`: false for a missing or empty dictionary, otherwise
   * scans the values and returns at the first one within the threshold.
   */
  method IsNearPivotLevel(price: int, levels: Option<seq<real>>, threshold: int) returns (near: bool)
    ensures near <==> NearPivot(price, levels, threshold)
    ensures levels == None || levels == Some([]) ==> !near
  {
    if levels.None? || levels.value == [] {
      return false;
    }
    var vals := levels.value;
    var i := 0;
    while i < |vals|
      invariant 0 <= i <= |vals|
      invariant forall k :: 0 <= k < i ==> !Within(price, vals[k], threshold)
    {
      if RealAbs(price as real - vals[i]) <= threshold as real {
        return true;
      }
      i := i + 1;
    }
    return false;
  }

  /** The worked example: high 1000, low 900, close 950. */
  lemma WorkedExample()
    ensures CalculatePivotLevels(map["2024-01-01" := DailyRecord(1000, 900, 950)], "2024-01-01")
            == Some(PivotLevels(950.0, 1000.0, 900.0, 1050.0, 850.0))
  {
  }

  /** On a day with a real range and an ordered record, the levels are strictly ordered. */
  lemma LevelsStrictlyOrdered(d: DailyRecord)
    requires Ordered(d) && d.high > d.low
    ensures var l := LevelsOf(d); l.s2 < l.s1 < l.pivot < l.r1 < l.r2
  {
  }

  /** On a flat day (high == low) all five levels coincide with the price. */
  lemma FlatDayLevels(d: DailyRecord)
    requires Ordered(d) && d.high == d.low
    ensures var l := LevelsOf(d); l.s2 == l.s1 == l.pivot == l.r1 == l.r2 == d.close as real
  {
  }

  /** The pivot always lies within the day's range. */
  lemma PivotWithinRange(d: DailyRecord)
    requires Ordered(d)
    ensures d.low as real <= LevelsOf(d).pivot <= d.high as real
  {
  }

  /** After an observation the levels exist and the price is within [s1, r1]. */
  lemma ObservedPriceBetweenFirstLevels(m: DailyMap, today: string, price: int)
    ensures var r := CalculatePivotLevels(Aggregate(m, today, price), today);
            r.Some? && r.value.s2 <= r.value.s1 <= price as real <= r.value.r1 <= r.value.r2
  {
  }
}
