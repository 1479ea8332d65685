/**
 * The daily high/low/close aggregate (`update_daily_data`, app.py:103-112).
 * `daily_data` is a dictionary from a date string to a record; one price
 * observation creates or updates the record of `today` and leaves every other
 * date alone.
 */
module DailyAggregate {

  /** The record kept per date: `{"high": .., "low": .., "close": ..}`. */
  datatype DailyRecord = DailyRecord(high: int, low: int, close: int)

  type DailyMap = map<string, DailyRecord>

  function Max(a: int, b: int): int { if a >= b then a else b }

  function Min(a: int, b: int): int { if a <= b then a else b }

  /** The record invariant: `low <= close <= high`. */
  predicate Ordered(d: DailyRecord) {
    d.low <= d.close <= d.high
  }

  /** Every record of the map satisfies the record invariant. */
  predicate AllOrdered(m: DailyMap) {
    forall t :: t in m ==> Ordered(m[t])
  }

  /** The record of `today` after observing `price`. */
  function Observe(m: DailyMap, today: string, price: int): (d: DailyRecord)
    ensures d.close == price
    ensures d.low <= price <= d.high
    ensures today !in m ==> d.high == price && d.low == price
    ensures today in m ==> d.high >= m[today].high && d.low <= m[today].low
    ensures today in m ==> (d.high == m[today].high || d.high == price)
    ensures today in m ==> (d.low == m[today].low || d.low == price)
  {
    if today !in m then DailyRecord(price, price, price)
    else DailyRecord(Max(m[today].high, price), Min(m[today].low, price), price)
  }

  /** The whole map after observing `price` on `today`. */
  function Aggregate(m: DailyMap, today: string, price: int): (r: DailyMap)
    ensures r.Keys == m.Keys + {today}
    ensures forall t :: t in m && t != today ==> r[t] == m[t]
    ensures r[today] == Observe(m, today, price)
    ensures Ordered(r[today]) && r[today].close == price
  {
    m[today := Observe(m, today, price)]
  }

  /** Observing a sequence of prices, in order, on one date. */
  function AggregateAll(m: DailyMap, today: string, obs: seq<int>): (r: DailyMap)
    decreases |obs|
  {
    if obs == [] then m
    else Aggregate(AggregateAll(m, today, obs[..|obs| - 1]), today, obs[|obs| - 1])
  }

  function SeqMax(s: seq<int>): (r: int)
    requires s != []
    ensures forall i :: 0 <= i < |s| ==> s[i] <= r
    ensures r in s
  {
    if |s| == 1 then s[0] else Max(SeqMax(s[..|s| - 1]), s[|s| - 1])
  }

  function SeqMin(s: seq<int>): (r: int)
    requires s != []
    ensures forall i :: 0 <= i < |s| ==> r <= s[i]
    ensures r in s
  {
    if |s| == 1 then s[0] else Min(SeqMin(s[..|s| - 1]), s[|s| - 1])
  }

  /** The reference meaning of a day's record: the highest, lowest and last observation. */
  function Summary(obs: seq<int>): DailyRecord
    requires obs != []
  {
    DailyRecord(SeqMax(obs), SeqMin(obs), obs[|obs| - 1])
  }

  /**
   * Starting from a date with no record, the record built by successive
   * observations is the summary of those observations: a new date starts with
   * high = low = close = the first price, and each later price widens high and
   * low and replaces close.
   */
  lemma {:induction false} AggregateSummarizes(m: DailyMap, today: string, obs: seq<int>)
    requires today !in m
    requires obs != []
    ensures today in AggregateAll(m, today, obs)
    ensures AggregateAll(m, today, obs)[today] == Summary(obs)
  {
    var front := obs[..|obs| - 1];
    if front == [] {
      assert obs == [obs[0]];
    } else {
      AggregateSummarizes(m, today, front);
      assert front[..|front| - 1] == obs[..|obs| - 2];
    }
  }

  /** Observations on `today` never change the record of any other date. */
  lemma {:induction false} AggregateAllOtherDates(m: DailyMap, today: string, obs: seq<int>, other: string)
    requires other != today
    ensures other in AggregateAll(m, today, obs) <==> other in m
    ensures other in m ==> AggregateAll(m, today, obs)[other] == m[other]
    decreases |obs|
  {
    if obs != [] {
      AggregateAllOtherDates(m, today, obs[..|obs| - 1], other);
    }
  }

  /** The update keeps `low <= close <= high` for every date. */
  lemma AggregateKeepsOrdered(m: DailyMap, today: string, price: int)
    requires AllOrdered(m)
    ensures AllOrdered(Aggregate(m, today, price))
  {
  }

  /** Observing the same price twice in a row changes nothing the second time. */
  lemma AggregateRepeatIdempotent(m: DailyMap, today: string, price: int)
    ensures Aggregate(Aggregate(m, today, price), today, price) == Aggregate(m, today, price)
  {
  }
}
