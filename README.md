# Gold-price signal bot: the decision engine

This project models the decision engine of a Telegram bot that watches the
price of melted gold (`app.py`). Each run fetches a price. It folds the price
into the day's high/low/close record and appends it to a 30-entry rolling
history. It then derives the five classic pivot levels from today's record
and decides whether the price is worth a signal: either a move of at least
0.2 percent from the last notified price, or a price within 300 of a pivot
level. Finally it sends the signal to every subscribed chat. A manual `/price`
query runs the same pipeline but answers only the requester. The `/start`
command subscribes a chat.

Modules:

- `Wrappers`: `Option`, standing for Python's `None`.
- `Numbers`: the integer and real absolute values used by the proximity and change tests.
- `DailyAggregate`: the per-date record and `update_daily_data`. It also gives
  a reference meaning for that update: the record is the max, min and last of
  the day's observations.
- `Pivots`: `calculate_pivot_levels` in exact real arithmetic, and
  `is_near_pivot_level` as a loop proved against an "exists a level within the
  threshold" predicate.
- `ActiveHours`: `is_in_active_hours`, with the time of day passed in as
  microseconds since midnight.
- `History`: the `deque(maxlen=30)` append. It is proved to always hold the
  last 30 observations.
- `ChangeDetector`: the 0.2 percent rule restated over integers as
  `500 * |price - last| >= |last|`, and proved equivalent to the source's
  `abs((price - last) / last) * 100 >= 0.2`.
- `Messaging`: the messages and the broadcast loop over the subscriber set.
- `Orchestrator`: `Cycle`, one run of `analyze_and_send` as a function of the
  old state; the class `GoldBot`, holding the four globals, whose
  `AnalyzeAndSend` performs the run step by step and is proved to agree with
  `Cycle`; and the lemmas that state the run's promises.

Inputs the source reads from the outside world are parameters: the fetched
price is an `Option<int>` (`None` for any fetch failure), the two date reads
of a run are two date strings, and the active-hours gate takes the time of day. A message send is
modelled as recording the target chat id together with what the message says.

## Model

| member | source | states |
|---|---|---|
| DailyAggregate.Observe | app.py:104-111 | a new date gets high = low = close = price; an existing date keeps high >= old high and low <= old low, each either unchanged or the price; close is the price and low <= price <= high |
| DailyAggregate.Aggregate | app.py:103-112 | only today's entry is created or changed, and it becomes `Observe`'s record; every other date's record is untouched; today's record is ordered and closes at the price |
| DailyAggregate.AggregateSummarizes | app.py:103-112 | from a date with no record, successive updates give high = max, low = min and close = last of the observations |
| DailyAggregate.AggregateAllOtherDates | app.py:104-106 | any number of updates for today never create, change or remove another date's record |
| DailyAggregate.AggregateKeepsOrdered | app.py:108-111 | the update preserves low <= close <= high for every date |
| DailyAggregate.AggregateRepeatIdempotent | app.py:108-111 | observing the same price twice in a row leaves the map as after the first time |
| Pivots.LevelsOf | app.py:120-129 | 3 * pivot = high + low + close; r1 and s1 mirror low and high about the pivot; r2 and s2 lie the day's range above and below it |
| Pivots.CalculatePivotLevels | app.py:115-131 | None exactly when today has no record, otherwise the levels of today's record |
| Pivots.IsNearPivotLevel | app.py:134-141 | true iff the levels exist and some level is within the threshold, inclusive; false for None or an empty dictionary |
| Pivots.WorkedExample | app.py:122-129 | high 1000, low 900, close 950 give pivot 950, r1 1000, s1 900, r2 1050, s2 850 |
| Pivots.LevelsStrictlyOrdered | app.py:122-128 | with low <= close <= high and high > low: s2 < s1 < pivot < r1 < r2 |
| Pivots.FlatDayLevels | app.py:122-128 | when high == low all five levels equal the price |
| Pivots.PivotWithinRange | app.py:122 | the pivot lies between the day's low and high |
| Pivots.ObservedPriceBetweenFirstLevels | app.py:170-173 | right after an update, the levels of that same date exist and the observed price lies in [s1, r1] |
| ActiveHours.IsInActiveHours | app.py:144-148 | inactive exactly in the open gaps (06:30, 11:00) and (19:00, 22:30); all four bounds of the source are inclusive |
| ActiveHours.ClockOrder | app.py:146 | comparing microseconds since midnight orders times as `datetime.time` does, field by field |
| ActiveHours.Boundaries | app.py:146 | 19:00:00 active, 19:00:00.000001 inactive, 22:29 inactive, 22:30 active, 06:30 active, 11:00 active, 10:59:59.999999 inactive |
| History.PushBounded | app.py:172 | the append puts the price last; below 30 entries it only appends, at 30 it drops the oldest and the size stays 30 |
| History.PushKeepsWindow | app.py:38 | appending to the window of the last 30 observations gives the window of the last 30 observations including the new one |
| History.PushAllIsWindow | app.py:38 | starting from empty, the deque always holds exactly the most recent 30 observations in order |
| ChangeDetector.PercentChange | app.py:191 | the percentage change is never negative |
| ChangeDetector.MovedEnoughIsPercent | app.py:191-192 | for last != 0, `500 * abs(price - last) >= abs(last)` holds iff `abs((price - last) / last) * 100 >= 0.2` |
| ChangeDetector.SignificantChange | app.py:186-194 | with no last notified price every price counts; with a nonzero last price a price counts iff the source's percentage change is at least 0.2 |
| ChangeDetector.NextLast | app.py:186-195 | after the change rule of an automatic run the last notified price is always set, and becomes the price exactly when the change is significant (or already equal) |
| ChangeDetector.PercentBoundary | app.py:192 | a move of exactly 0.2 percent counts, 0.199 percent and no move do not |
| Messaging.Broadcast | app.py:201-206 | every subscriber is sent to exactly once and no one else is |
| Orchestrator.Cycle | app.py:151-206 | one run as a function of the old state, the fetch result, the two date reads and the manual flags: subscribers never change and the history stays bounded; no subscribers and not manual returns the old state silently; a failed fetch keeps the state; a manual reply answers only the requester and keeps the last notified price; a success puts the price last in the history; any message goes to all subscribers unless it is a manual reply. The rows below state the rest of its promises |
| Orchestrator.PivotOf | app.py:177-178 | a message carries the pivot exactly when the levels exist |
| Orchestrator.CycleKeepsInv | app.py:151-206 | every run keeps records ordered and the history at most 30 long, and leaves the subscribers unchanged |
| Orchestrator.NoSubscribersNoWork | app.py:153-155 | an automatic run with no subscribers changes no state and sends nothing |
| Orchestrator.FetchFailureKeepsState | app.py:158-168 | a failed fetch changes no state and sends one error message, to the requester of a manual query or else to every subscriber |
| Orchestrator.SuccessRecordsObservation | app.py:170-181 | a successful fetch updates the daily record and appends the price to the history; a message carries a pivot exactly when the second date read finds a record, and then it is that record's pivot (today's when both reads agree) |
| Orchestrator.MidnightRolloverLosesPivot | app.py:116-119 | when the second date read falls on a new date without a record, a message carries no pivot and an automatic run signals only on a significant change |
| Orchestrator.ManualReplyKeepsLastPrice | app.py:175-181 | a manual query with a chat id answers only that chat, quotes the price (with the pivot when both date reads agree), and never changes the last notified price |
| Orchestrator.FirstPriceSeeds | app.py:186-189 | with no last notified price an automatic run always signals every subscriber and seeds the last notified price |
| Orchestrator.AutomaticChangeRule | app.py:183-206 | an automatic run signals iff the price moved at least 0.2 percent or is within 300 of a level; only the percentage path replaces the last notified price |
| Orchestrator.ProximityRetriggers | app.py:184-197 | a near-pivot price with no significant move signals without moving the last notified price, so the same price seen again signals again |
| Orchestrator.GoldBot.constructor | app.py:38-41 | the globals start empty: no records, empty history, no last price, no subscribers |
| Orchestrator.GoldBot.UpdateDailyData | app.py:103-112 | the record map becomes the aggregate of the old map with the price, and the state invariant is kept |
| Orchestrator.GoldBot.AppendPrice | app.py:172 | the history becomes the bounded append of the price, and the state invariant is kept |
| Orchestrator.GoldBot.Start | app.py:209-211 | the chat is added to the subscriber set, and adding it again changes nothing |
| Orchestrator.GoldBot.AnalyzeAndSend | app.py:151-206 | for the given fetch result and the two date reads, the new state is the one `Cycle` prescribes, and the chats sent to are exactly its targets, each once, with its message |

## Left out

- Fetching the price (`get_gold_price`, app.py:76-100): HTTP I/O and feed parsing. The result is an `Option<int>` input.
- Persistence (`load_data`, `save_data`, app.py:44-73): file I/O. The run does not model the `save_data` call at app.py:171; it has no effect on the in-memory state.
- The `/stats` handler (app.py:220-229) and the health routes (app.py:232-240): they only read state. The webhook (app.py:242-254) parses an update and passes it to the `/start` and `/price` handlers, which `GoldBot.Start` and `GoldBot.AnalyzeAndSend` model.
- The scheduler thread and the server start (app.py:257-277): process plumbing and concurrency. Runs are modelled one at a time. The source takes no lock, and its broadcast iterates the live `active_chats` set rather than a snapshot.
- Telegram sends: a send is recorded as its target id. Message text formatting with thousands separators (app.py:176-179, 198-200) is reduced to the price and the pivot a message carries. The per-chat try/except only means every chat is attempted. The model treats every send as attempted and does not model delivery failures.
- Logging throughout.
- Clock reads (`date.today()`, `datetime.now()`): the dates and the time of day are parameters. A run reads the date twice, in `update_daily_data` (app.py:104) and in `calculate_pivot_levels` (app.py:116). The run therefore takes two dates, `today` and `pivotDate`, which differ when a run crosses midnight between the two reads. The active-hours gate is not consulted by the run, as in the source.
- Floating point: the pivot's `/ 3` and the percentage test use exact reals and integers, so float rounding is not modelled.
- Orchestrator.GoldBot.AnalyzeAndSend: requires that the run does not reach the percentage test with a last notified price of 0. The source raises ZeroDivisionError there (app.py:191), after it has already updated the record and the history. A fetched price of 0 is possible, because the feed's price defaults to "0" (app.py:91).
