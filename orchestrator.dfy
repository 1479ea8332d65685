/**
 * The shared state of the bot and one run of `analyze_and_send`
 * (app.py:37-41, 151-206), with the `/start` handler that subscribes a chat
 * (app.py:209-211).
 *
 * `Cycle` is the specification of one run as a function of the old state and
 * the inputs; the class `GoldBot` holds the source's global variables and its
 * method `AnalyzeAndSend` performs the run step by step and is proved to agree
 * with `Cycle`. The lemmas below state the behaviour promised by the source
 * in terms of `Cycle`.
 */
module Orchestrator {
  import opened Wrappers
  import opened DailyAggregate
  import opened Pivots
  import opened History
  import opened ChangeDetector
  import opened Messaging

  /** The globals `daily_data`, `prices`, `last_price` and `active_chats`. */
  datatype BotState = BotState(dailyData: DailyMap, prices: seq<int>, lastPrice: Option<int>, activeChats: set<int>)

  /** What holds of the state between runs: ordered records and a bounded history. */
  predicate Inv(s: BotState) {
    AllOrdered(s.dailyData) && |s.prices| <= HistoryCap
  }

  /** What one run sends: nothing, or one message to a set of chats. */
  datatype Outbox = Quiet | Send(msg: Message, targets: set<int>)

  datatype Step = Step(next: BotState, out: Outbox)

  /** Python truthiness of `manual_chat_id`: None and 0 are false. */
  predicate Truthy(chatId: Option<int>) {
    chatId.Some? && chatId.value != 0
  }

  /** `is_manual and manual_chat_id`: the run answers only the requester. */
  predicate ManualReply(isManual: bool, chatId: Option<int>) {
    isManual && Truthy(chatId)
  }

  /** `not active_chats and not is_manual`: the run returns at once. */
  predicate SkipsRun(s: BotState, isManual: bool) {
    s.activeChats == {} && !isManual
  }

  /**
   * The inputs on which the source reaches the percentage test with
   * `last_price == 0` and raises ZeroDivisionError (app.py:191).
   */
  predicate DividesByZero(s: BotState, fetched: Option<int>, isManual: bool, chatId: Option<int>) {
    !SkipsRun(s, isManual) && fetched.Some? && !ManualReply(isManual, chatId) && s.lastPrice == Some(0)
  }

  /** The pivot shown in a message, when the levels exist. */
  function PivotOf(levels: Option<PivotLevels>): (p: Option<real>)
    ensures p.Some? <==> levels.Some?
    ensures levels.Some? ==> p.value == levels.value.pivot
  {
    match levels
    case None => None
    case Some(l) => Some(l.pivot)
  }

  /**
   * One run of `analyze_and_send`, as a function of the old state and the
   * inputs. The source reads the date twice: `update_daily_data` at app.py:104
   * gives `today`, and `calculate_pivot_levels` at app.py:116 gives
   * `pivotDate`. The two differ when the run crosses midnight between them.
   */
  function Cycle(s: BotState, today: string, pivotDate: string, fetched: Option<int>, isManual: bool,
                 chatId: Option<int>): (r: Step)
    requires |s.prices| <= HistoryCap
    requires !DividesByZero(s, fetched, isManual, chatId)
    ensures r.next.activeChats == s.activeChats && |r.next.prices| <= HistoryCap
    ensures SkipsRun(s, isManual) ==> r == Step(s, Quiet)
    ensures fetched.None? ==> r.next == s
    ensures ManualReply(isManual, chatId) ==> r.next.lastPrice == s.lastPrice && r.out.Send? && r.out.targets == {chatId.value}
    ensures !SkipsRun(s, isManual) && fetched.Some? ==> r.next.prices != [] && r.next.prices[|r.next.prices| - 1] == fetched.value
    ensures r.out.Send? ==> r.out.targets == s.activeChats || ManualReply(isManual, chatId)
  {
    if SkipsRun(s, isManual) then Step(s, Quiet)
    else if fetched.None? then
      Step(s, Send(FetchFailed, if ManualReply(isManual, chatId) then {chatId.value} else s.activeChats))
    else
      var price := fetched.value;
      var daily := Aggregate(s.dailyData, today, price);
      var prices := PushBounded(s.prices, price);
      var levels := CalculatePivotLevels(daily, pivotDate);
      if ManualReply(isManual, chatId) then
        Step(s.(dailyData := daily, prices := prices), Send(ManualQuote(price, PivotOf(levels)), {chatId.value}))
      else
        var significant := SignificantChange(s.lastPrice, price);
        var near := NearPivot(price, AsDict(levels), NearThreshold);
        Step(s.(dailyData := daily, prices := prices, lastPrice := NextLast(s.lastPrice, price)),
             if significant || near then Send(PriceSignal(price, PivotOf(levels)), s.activeChats) else Quiet)
  }

  /** The chats in `sent` and the message `msg` are what `out` prescribes. */
  ghost predicate Delivered(out: Outbox, sent: seq<int>, msg: Option<Message>) {
    match out
    case Quiet => sent == [] && msg == None
    case Send(m, targets) => msg == Some(m) && Distinct(sent) && forall c :: c in sent <==> c in targets
  }

  /** Every run keeps the state invariant and leaves the subscribers alone. */
  lemma CycleKeepsInv(s: BotState, today: string, pivotDate: string, fetched: Option<int>, isManual: bool,
                      chatId: Option<int>)
    requires Inv(s) && !DividesByZero(s, fetched, isManual, chatId)
    ensures var r := Cycle(s, today, pivotDate, fetched, isManual, chatId);
            Inv(r.next) && r.next.activeChats == s.activeChats
  {
    if fetched.Some? {
      AggregateKeepsOrdered(s.dailyData, today, fetched.value);
    }
  }

  /** Without subscribers an automatic run changes nothing and sends nothing, before any fetch. */
  lemma NoSubscribersNoWork(s: BotState, today: string, pivotDate: string, fetched: Option<int>, chatId: Option<int>)
    requires |s.prices| <= HistoryCap && s.activeChats == {}
    ensures Cycle(s, today, pivotDate, fetched, false, chatId) == Step(s, Quiet)
  {
  }

  /**
   * A failed fetch changes no state and sends one error message: to the
   * requester of a manual query, otherwise to every subscriber.
   */
  lemma FetchFailureKeepsState(s: BotState, today: string, pivotDate: string, isManual: bool, chatId: Option<int>)
    requires |s.prices| <= HistoryCap && !SkipsRun(s, isManual)
    ensures var r := Cycle(s, today, pivotDate, None, isManual, chatId);
            && r.next == s
            && r.out == Send(FetchFailed, if ManualReply(isManual, chatId) then {chatId.value} else s.activeChats)
  {
  }

  /**
   * A successful fetch feeds the aggregate and the bounded history. Any
   * message it sends carries a pivot exactly when the second date read finds
   * a record, and that pivot is the record's; when both reads give the same
   * date, it is the pivot of today's fresh record.
   */
  lemma SuccessRecordsObservation(s: BotState, today: string, pivotDate: string, price: int, isManual: bool,
                                  chatId: Option<int>)
    requires Inv(s) && !SkipsRun(s, isManual) && !DividesByZero(s, Some(price), isManual, chatId)
    ensures var r := Cycle(s, today, pivotDate, Some(price), isManual, chatId);
            && r.next.dailyData == Aggregate(s.dailyData, today, price)
            && r.next.prices == PushBounded(s.prices, price)
            && r.next.prices[|r.next.prices| - 1] == price
            && (r.out.Send? ==> (r.out.msg.pivot.Some? <==> pivotDate in r.next.dailyData))
            && (r.out.Send? && pivotDate in r.next.dailyData ==>
                  r.out.msg.pivot == Some(LevelsOf(r.next.dailyData[pivotDate]).pivot))
            && (r.out.Send? && pivotDate == today ==> r.out.msg.pivot == Some(LevelsOf(r.next.dailyData[today]).pivot))
  {
  }

  /**
   * A run that crosses midnight between the two date reads, onto a date with
   * no record, finds no levels: the message shows no pivot and the proximity
   * rule cannot fire.
   */
  lemma MidnightRolloverLosesPivot(s: BotState, today: string, pivotDate: string, price: int, isManual: bool,
                                   chatId: Option<int>)
    requires |s.prices| <= HistoryCap && !SkipsRun(s, isManual) && !DividesByZero(s, Some(price), isManual, chatId)
    requires pivotDate != today && pivotDate !in s.dailyData
    ensures var r := Cycle(s, today, pivotDate, Some(price), isManual, chatId);
            && (r.out.Send? ==> r.out.msg.pivot == None)
            && (!ManualReply(isManual, chatId) ==> (r.out.Send? <==> SignificantChange(s.lastPrice, price)))
  {
  }

  /**
   * A manual query answers only the requester and never moves the last
   * notified price; on success it quotes the price, with today's pivot when
   * both date reads agree.
   */
  lemma ManualReplyKeepsLastPrice(s: BotState, today: string, pivotDate: string, fetched: Option<int>,
                                  chatId: Option<int>)
    requires |s.prices| <= HistoryCap && Truthy(chatId)
    ensures var r := Cycle(s, today, pivotDate, fetched, true, chatId);
            && r.next.lastPrice == s.lastPrice
            && r.out.Send? && r.out.targets == {chatId.value}
            && (fetched.Some? ==> r.out.msg.ManualQuote? && r.out.msg.price == fetched.value)
            && (fetched.Some? && pivotDate == today ==> r.out.msg.pivot.Some?)
  {
  }

  /** The first price of an automatic run is always signalled and becomes the last notified price. */
  lemma FirstPriceSeeds(s: BotState, today: string, pivotDate: string, price: int, isManual: bool, chatId: Option<int>)
    requires |s.prices| <= HistoryCap && !SkipsRun(s, isManual) && !ManualReply(isManual, chatId)
    requires s.lastPrice == None
    ensures var r := Cycle(s, today, pivotDate, Some(price), isManual, chatId);
            && r.next.lastPrice == Some(price)
            && r.out.Send? && r.out.targets == s.activeChats && r.out.msg.PriceSignal?
  {
  }

  /**
   * With a last notified price, an automatic run signals exactly when the
   * price moved by at least 0.2 percent or lies within 300 of a pivot level,
   * and replaces the last notified price only in the first case.
   */
  lemma AutomaticChangeRule(s: BotState, today: string, pivotDate: string, price: int, isManual: bool,
                            chatId: Option<int>)
    requires |s.prices| <= HistoryCap && !SkipsRun(s, isManual) && !ManualReply(isManual, chatId)
    requires s.lastPrice.Some? && s.lastPrice.value != 0
    ensures var r := Cycle(s, today, pivotDate, Some(price), isManual, chatId);
            var moved := PercentChange(s.lastPrice.value, price) >= 0.2;
            var levels := CalculatePivotLevels(r.next.dailyData, pivotDate);
            && r.next.lastPrice == (if moved then Some(price) else s.lastPrice)
            && (r.out.Send? <==> moved || NearPivot(price, AsDict(levels), NearThreshold))
            && (r.out.Send? ==> r.out == Send(PriceSignal(price, PivotOf(levels)), s.activeChats))
  {
    MovedEnoughIsPercent(s.lastPrice.value, price);
  }

  /**
   * The proximity path does not move the last notified price, so the same
   * price seen again on the same day signals again instead of being swallowed.
   */
  lemma ProximityRetriggers(s: BotState, today: string, pivotDate: string, price: int, isManual: bool,
                            chatId: Option<int>)
    requires |s.prices| <= HistoryCap && !SkipsRun(s, isManual) && !ManualReply(isManual, chatId)
    requires s.lastPrice.Some? && s.lastPrice.value != 0 && !MovedEnough(s.lastPrice.value, price)
    requires NearPivot(price, AsDict(CalculatePivotLevels(Aggregate(s.dailyData, today, price), pivotDate)), NearThreshold)
    ensures var r1 := Cycle(s, today, pivotDate, Some(price), isManual, chatId);
            && r1.out.Send? && r1.next.lastPrice == s.lastPrice
            && var r2 := Cycle(r1.next, today, pivotDate, Some(price), isManual, chatId);
            && r2.out.Send? && r2.next.lastPrice == s.lastPrice
  {
    AggregateRepeatIdempotent(s.dailyData, today, price);
  }

  class GoldBot {
    var dailyData: DailyMap
    var prices: seq<int>
    var lastPrice: Option<int>
    var activeChats: set<int>

    function State(): BotState
      reads this
    {
      BotState(dailyData, prices, lastPrice, activeChats)
    }

    ghost predicate Valid()
      reads this
    {
      Inv(State())
    }

    /** The process start: empty globals (app.py:38-41). */
    constructor ()
      ensures Valid()
      ensures State() == BotState(map[], [], None, {})
    {
      dailyData := map[];
      prices := [];
      lastPrice := None;
      activeChats := {};
    }

    /** `update_daily_data` (app.py:103-112): the record of `today` absorbs `price`. */
    method UpdateDailyData(today: string, price: int)
      requires Valid()
      modifies this`dailyData
      ensures Valid()
      ensures dailyData == Aggregate(old(dailyData), today, price)
    {
      AggregateKeepsOrdered(dailyData, today, price);
      dailyData := dailyData[today := Observe(dailyData, today, price)];
    }

    /** `prices.append(price)` on the bounded deque (app.py:172). */
    method AppendPrice(price: int)
      requires Valid()
      modifies this`prices
      ensures Valid()
      ensures prices == PushBounded(old(prices), price)
    {
      if |prices| == HistoryCap {
        prices := prices[1..];
      }
      prices := prices + [price];
    }

    /** The `/start` handler: `active_chats.add(chat_id)` (app.py:209-211). */
    method Start(chatId: int)
      requires Valid()
      modifies this`activeChats
      ensures Valid()
      ensures activeChats == old(activeChats) + {chatId}
    {
      activeChats := activeChats + {chatId};
    }

    /**
     * `analyze_and_send(is_manual, manual_chat_id)` with the fetched price and
     * the two date reads passed in. Returns the chats a message went to and
     * the message.
     */
    method AnalyzeAndSend(today: string, pivotDate: string, fetched: Option<int>, isManual: bool, chatId: Option<int>)
        returns (sent: seq<int>, msg: Option<Message>)
      requires Valid()
      requires !DividesByZero(State(), fetched, isManual, chatId)
      modifies this
      ensures Valid()
      ensures State() == Cycle(old(State()), today, pivotDate, fetched, isManual, chatId).next
      ensures Delivered(Cycle(old(State()), today, pivotDate, fetched, isManual, chatId).out, sent, msg)
    {
      ghost var s0 := State();
      ghost var step := Cycle(s0, today, pivotDate, fetched, isManual, chatId);
      CycleKeepsInv(s0, today, pivotDate, fetched, isManual, chatId);
      if activeChats == {} && !isManual {
        return [], None;
      }
      if fetched.None? {
        msg := Some(FetchFailed);
        if isManual && Truthy(chatId) {
          sent := [chatId.value];
        } else {
          sent := Broadcast(activeChats);
        }
        return;
      }
      var price := fetched.value;
      UpdateDailyData(today, price);
      AppendPrice(price);
      var levels := CalculatePivotLevels(dailyData, pivotDate);
      assert levels == CalculatePivotLevels(Aggregate(s0.dailyData, today, price), pivotDate);

      if isManual && Truthy(chatId) {
        return [chatId.value], Some(ManualQuote(price, PivotOf(levels)));
      }

      var significant := false;
      var near := IsNearPivotLevel(price, AsDict(levels), NearThreshold);
      if lastPrice.None? {
        significant := true;
        lastPrice := Some(price);
      } else if MovedEnough(lastPrice.value, price) {
        significant := true;
        lastPrice := Some(price);
      }
      assert significant == SignificantChange(s0.lastPrice, price);
      assert State() == step.next;

      if significant || near {
        msg := Some(PriceSignal(price, PivotOf(levels)));
        sent := Broadcast(activeChats);
      } else {
        sent, msg := [], None;
      }
    }
  }
}
