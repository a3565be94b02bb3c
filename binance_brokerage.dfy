/**
 * The Binance brokerage's own state and the operations on it: the cached
 * order table, the request-id counter, the subscribe and unsubscribe frames
 * it sends, the error and warning events it raises, and the calls it forwards
 * to the data aggregator and the multi-connection subscription manager.
 */
module Binance {
  import opened Wrappers
  import opened Text
  import opened Decimals
  import opened Global
  import opened BinanceOrders

  /** A C# `long`. */
  newtype int64 = x: int | -0x8000_0000_0000_0000 <= x < 0x8000_0000_0000_0000

  const MaxLong: int64 := 0x7FFF_FFFF_FFFF_FFFF
  const MinLong: int64 := -0x8000_0000_0000_0000

  /** `Interlocked.Increment` on a `long`: one more, wrapping from the largest value to the smallest. */
  function NextRequestId(last: int64): (r: int64)
    ensures last < MaxLong ==> r as int == last as int + 1
    ensures last == MaxLong ==> r == MinLong
  {
    if last == MaxLong then MinLong else last + 1
  }

  /** The ids `n` successive calls hand out, starting after `last`. */
  function IssuedIds(last: int64, n: nat): (ids: seq<int64>)
    ensures |ids| == n
    ensures n > 0 ==> ids[0] == NextRequestId(last)
    ensures forall i :: 0 < i < n ==> ids[i] == NextRequestId(ids[i - 1])
    decreases n
  {
    if n == 0 then [] else [NextRequestId(last)] + IssuedIds(NextRequestId(last), n - 1)
  }

  /**
   * Until the counter reaches the largest `long`, the issued ids are
   * `last + 1, last + 2, ...`: strictly increasing, so no two requests share an id.
   */
  lemma {:induction false} IssuedIdsIncrease(last: int64, n: nat)
    requires last as int + n <= MaxLong as int
    decreases n
    ensures forall i :: 0 <= i < n ==> IssuedIds(last, n)[i] as int == last as int + i + 1
    ensures forall i, j :: 0 <= i < j < n ==> IssuedIds(last, n)[i] < IssuedIds(last, n)[j]
  {
    if n > 0 {
      IssuedIdsIncrease(NextRequestId(last), n - 1);
    }
  }

  /** A subscribe or unsubscribe request as sent on a socket: `{method, params, id}`. */
  datatype Frame = Frame(methodName: string, params: seq<string>, id: int64)

  /** A frame together with the socket it was sent on. */
  datatype SentFrame = SentFrame(webSocket: nat, frame: Frame)

  /** The two streams of a symbol: its trades and its best bid/ask. */
  function StreamNames(symbol: Symbol): (r: seq<string>)
    ensures |r| == 2 && r[0] != r[1]
    ensures |r[0]| == |symbol.value| + 6 && |r[1]| == |symbol.value| + 11
    ensures r[0][..|symbol.value|] == ToLower(symbol.value) && r[1][..|symbol.value|] == ToLower(symbol.value)
    ensures r[0][|symbol.value|..] == "@trade" && r[1][|symbol.value|..] == "@bookTicker"
  {
    var name := ToLower(symbol.value);
    assert (name + "@trade")[|name + "@trade"| - 1] == 'e';
    assert (name + "@bookTicker")[|name + "@bookTicker"| - 1] == 'r';
    [name + "@trade", name + "@bookTicker"]
  }

  /** Symbols whose values differ only in letter case share their streams. */
  lemma StreamNamesCaseInsensitive(a: Symbol, b: Symbol)
    requires ToLower(a.value) == ToLower(b.value)
    ensures StreamNames(a) == StreamNames(b)
  {
  }

  lemma SuffixCancels(x: string, y: string, suffix: string)
    requires x + suffix == y + suffix
    ensures x == y
  {
    assert |x| == |y|;
    assert x == (x + suffix)[..|x|];
    assert y == (y + suffix)[..|y|];
  }

  /** Symbols whose values differ other than in letter case have no stream in common. */
  lemma DistinctSymbolsDistinctStreams(a: Symbol, b: Symbol)
    requires ToLower(a.value) != ToLower(b.value)
    ensures forall p :: p in StreamNames(a) ==> p !in StreamNames(b)
  {
    var x, y := ToLower(a.value), ToLower(b.value);
    if x + "@trade" == y + "@trade" {
      SuffixCancels(x, y, "@trade");
    }
    if x + "@bookTicker" == y + "@bookTicker" {
      SuffixCancels(x, y, "@bookTicker");
    }
    assert (x + "@trade")[|x + "@trade"| - 1] == 'e';
    assert (y + "@trade")[|y + "@trade"| - 1] == 'e';
    assert (x + "@bookTicker")[|x + "@bookTicker"| - 1] == 'r';
    assert (y + "@bookTicker")[|y + "@bookTicker"| - 1] == 'r';
  }

  /** The frame the private `Subscribe` ("SUBSCRIBE") and `Unsubscribe` ("UNSUBSCRIBE") send for a symbol. */
  function StreamFrame(methodName: string, symbol: Symbol, id: int64): (f: Frame)
    ensures f.methodName == methodName && f.params == StreamNames(symbol) && f.id == id
  {
    Frame(methodName, StreamNames(symbol), id)
  }

  /** Only Binance crypto symbols that are not universe symbols can be streamed. */
  function CanSubscribe(symbol: Symbol): (r: bool)
    ensures r <==> && !(exists i :: OccursAt(symbol.value, "UNIVERSE", i))
                   && symbol.securityType == Crypto
                   && symbol.market == BinanceMarket
  {
    !Contains(symbol.value, "UNIVERSE") && symbol.securityType == Crypto && symbol.market == BinanceMarket
  }

  /** The matching is exact: a lower-case "universe" does not block a subscription. */
  lemma CanSubscribeExamples()
    ensures !CanSubscribe(Symbol("BTCUSDT UNIVERSE", Crypto, BinanceMarket))
    ensures CanSubscribe(Symbol("universe", Crypto, BinanceMarket))
    ensures !CanSubscribe(Symbol("BTCUSDT", Crypto, "Binance"))
    ensures !CanSubscribe(Symbol("BTCUSDT", Forex, BinanceMarket))
  {
    assert OccursAt("BTCUSDT UNIVERSE", "UNIVERSE", 8);
    assert "universe"[0..8][0] != "UNIVERSE"[0];
  }

  /** The part of a subscription request the brokerage reads. */
  datatype SubscriptionDataConfig = SubscriptionDataConfig(symbol: Symbol)

  /** The calls made into the data aggregator and the subscription manager, whose code is not modelled. */
  datatype ExternalCall =
    | AggregatorAdd(config: SubscriptionDataConfig)
    | AggregatorRemove(config: SubscriptionDataConfig)
    | ManagerSubscribe(config: SubscriptionDataConfig)
    | ManagerUnsubscribe(config: SubscriptionDataConfig)

  datatype HistoryRequest = HistoryRequest(symbol: Symbol, resolution: Resolution, tickType: TickType)

  /** One candle from the REST API; `openTime` is a Unix timestamp in milliseconds. */
  datatype Kline = Kline(openTime: int, open: Decimal, high: Decimal, low: Decimal, close: Decimal, volume: Decimal)

  datatype TradeBar = TradeBar(
    time: int, symbol: Symbol,
    open: Decimal, high: Decimal, low: Decimal, close: Decimal, volume: Decimal,
    value: Decimal, dataType: MarketDataType, periodMs: nat)

  /** What `GetHistory` yields: the warnings it raises and the bars it returns. */
  datatype History = History(warnings: seq<BrokerageMessageEvent>, bars: seq<TradeBar>)

  function KlineToBar(k: Kline, symbol: Symbol, periodMs: nat): TradeBar
  {
    TradeBar.TradeBar(k.openTime, symbol, k.open, k.high, k.low, k.close, k.volume, k.close, MarketDataType.TradeBar, periodMs)
  }

  /**
   * `GetHistory`: tick and second resolutions, and any tick type other than
   * trades, yield a warning and no bars; otherwise one trade bar per kline,
   * in order, whose value is the close and whose period is the resolution's span.
   */
  function GetHistory(request: HistoryRequest, klines: seq<Kline>): (r: History)
    ensures request.resolution in {Resolution.Tick, Second} ==>
      r == History([BrokerageMessageEvent(Warning, "InvalidResolution",
                     request.resolution.Name() + " resolution is not supported, no history returned")], [])
    ensures request.resolution !in {Resolution.Tick, Second} && request.tickType != Trade ==>
      r == History([BrokerageMessageEvent(Warning, "InvalidTickType",
                     request.tickType.Name() + " tick type not supported, no history returned")], [])
    ensures request.resolution !in {Resolution.Tick, Second} && request.tickType == Trade ==>
      && r.warnings == []
      && |r.bars| == |klines|
      && forall i :: 0 <= i < |klines| ==>
           && r.bars[i].time == klines[i].openTime
           && r.bars[i].symbol == request.symbol
           && r.bars[i].open == klines[i].open && r.bars[i].high == klines[i].high
           && r.bars[i].low == klines[i].low && r.bars[i].close == klines[i].close
           && r.bars[i].volume == klines[i].volume
           && r.bars[i].value == klines[i].close
           && r.bars[i].dataType == MarketDataType.TradeBar
           && r.bars[i].periodMs == request.resolution.SpanMilliseconds()
           && r.bars[i].periodMs >= 60 * 1000
  {
    if request.resolution == Resolution.Tick || request.resolution == Second then
      History([BrokerageMessageEvent(Warning, "InvalidResolution",
                request.resolution.Name() + " resolution is not supported, no history returned")], [])
    else if request.tickType != Trade then
      History([BrokerageMessageEvent(Warning, "InvalidTickType",
                request.tickType.Name() + " tick type not supported, no history returned")], [])
    else
      var period := request.resolution.SpanMilliseconds();
      History([], seq(|klines|, i requires 0 <= i < |klines| => KlineToBar(klines[i], request.symbol, period)))
  }

  /** History either warns or returns bars, never both. */
  lemma HistoryWarnsOrReturns(request: HistoryRequest, klines: seq<Kline>)
    ensures var r := GetHistory(request, klines); |r.warnings| <= 1 && (r.warnings != [] ==> r.bars == [])
  {
  }

  datatype BrokerageException = NotSupportedException(message: string)

  class BinanceBrokerage {
    /** The symbol mapper and order-status conversion the brokerage delegates to. */
    const mappers: Mappers
    /** `CachedOrderIDs`: internal order id to the last known order. */
    var cachedOrderIds: map<int, Order>
    /** `_lastRequestId`. */
    var lastRequestId: int64
    /** The events passed to `OnMessage`, oldest first. */
    var messages: seq<BrokerageMessageEvent>
    /** The frames sent through the rate-limited `Send`, oldest first. */
    var sent: seq<SentFrame>
    /** The calls forwarded to the aggregator and the subscription manager, oldest first. */
    var externalCalls: seq<ExternalCall>

    constructor (mappers: Mappers)
      ensures this.mappers == mappers
      ensures cachedOrderIds == map[] && lastRequestId == 0
      ensures messages == [] && sent == [] && externalCalls == []
    {
      this.mappers := mappers;
      cachedOrderIds := map[];
      lastRequestId := 0;
      messages, sent, externalCalls := [], [], [];
    }

    /** `GetNextRequestId`: advances the counter and returns its new value. */
    method GetNextRequestId() returns (id: int64)
      modifies this`lastRequestId
      ensures id == NextRequestId(old(lastRequestId)) && lastRequestId == id
    {
      lastRequestId := NextRequestId(lastRequestId);
      id := lastRequestId;
    }

    /** Private `Subscribe(webSocket, symbol)`: sends a SUBSCRIBE frame carrying the next request id; always succeeds. */
    method SubscribeStreams(webSocket: nat, symbol: Symbol) returns (ok: bool)
      modifies this`lastRequestId, this`sent
      ensures ok
      ensures lastRequestId == NextRequestId(old(lastRequestId))
      ensures sent == old(sent) + [SentFrame(webSocket, StreamFrame("SUBSCRIBE", symbol, lastRequestId))]
    {
      var id := GetNextRequestId();
      sent := sent + [SentFrame(webSocket, StreamFrame("SUBSCRIBE", symbol, id))];
      ok := true;
    }

    /** Private `Unsubscribe(webSocket, symbol)`: sends an UNSUBSCRIBE frame carrying the next request id; always succeeds. */
    method UnsubscribeStreams(webSocket: nat, symbol: Symbol) returns (ok: bool)
      modifies this`lastRequestId, this`sent
      ensures ok
      ensures lastRequestId == NextRequestId(old(lastRequestId))
      ensures sent == old(sent) + [SentFrame(webSocket, StreamFrame("UNSUBSCRIBE", symbol, lastRequestId))]
    {
      var id := GetNextRequestId();
      sent := sent + [SentFrame(webSocket, StreamFrame("UNSUBSCRIBE", symbol, id))];
      ok := true;
    }

    /**
     * Data-queue `Subscribe`: refuses (returns no enumerator) unless the symbol
     * can be streamed; otherwise registers the config with the aggregator and
     * the subscription manager.
     */
    method Subscribe(dataConfig: SubscriptionDataConfig) returns (subscribed: bool)
      modifies this`externalCalls
      ensures subscribed == CanSubscribe(dataConfig.symbol)
      ensures externalCalls == old(externalCalls)
        + (if subscribed then [AggregatorAdd(dataConfig), ManagerSubscribe(dataConfig)] else [])
    {
      if !CanSubscribe(dataConfig.symbol) {
        return false;
      }
      externalCalls := externalCalls + [AggregatorAdd(dataConfig)];
      externalCalls := externalCalls + [ManagerSubscribe(dataConfig)];
      subscribed := true;
    }

    /** Data-queue `Unsubscribe`: always forwarded, manager first, then the aggregator. */
    method Unsubscribe(dataConfig: SubscriptionDataConfig)
      modifies this`externalCalls
      ensures externalCalls == old(externalCalls) + [ManagerUnsubscribe(dataConfig), AggregatorRemove(dataConfig)]
    {
      externalCalls := externalCalls + [ManagerUnsubscribe(dataConfig)];
      externalCalls := externalCalls + [AggregatorRemove(dataConfig)];
    }

    /**
     * `OnOrderSubmit`: records the broker id the exchange assigned to a
     * submitted order.
     */
    method OnOrderSubmit(order: Order, brokerId: string)
      modifies this`cachedOrderIds
      ensures cachedOrderIds == Submit(old(cachedOrderIds), order, brokerId)
    {
      if order.id in cachedOrderIds {
        var cached := cachedOrderIds[order.id];
        // `BrokerId.Clear()` followed by `BrokerId.Add(brokerId)`, as one update.
        cachedOrderIds := cachedOrderIds[order.id := cached.(brokerId := [brokerId])];
      } else {
        var updated := order.(brokerId := order.brokerId + [brokerId]);
        cachedOrderIds := cachedOrderIds[order.id := updated];
      }
    }

    /**
     * The cache update inside `GetOpenOrders`: an open order replaces the
     * first cached entry whose broker ids contain its broker id.
     */
    method RefreshCachedEntry(order: Order)
      requires order.brokerId != []
      modifies this`cachedOrderIds
      ensures cachedOrderIds == RefreshEntry(old(cachedOrderIds), order)
    {
      if order.status.IsOpen() {
        var cached := MatchingIds(cachedOrderIds, order.brokerId[0]);
        if cached != {} {
          ghost var seed := Pick(cached);
          assert Least(cached, seed) in cached;
          var first :| first in cached && forall k :: k in cached ==> first <= k;
          RefreshEntryReplacesLeast(cachedOrderIds, order, first);
          cachedOrderIds := cachedOrderIds[first := order];
        } else {
          RefreshEntryKeeps(cachedOrderIds, order);
        }
      } else {
        RefreshEntryKeeps(cachedOrderIds, order);
      }
    }

    /**
     * The body of the `GetOpenOrders` loop for one item: an unsupported tag
     * raises an error event; a supported one yields its order, which then
     * refreshes the cache.
     */
    method ProcessOpenOrderItem(item: OpenOrderItem) returns (converted: Option<Order>)
      modifies this`cachedOrderIds, this`messages
      ensures converted == Convert(item, mappers)
      ensures messages == old(messages) + (if Supported(item) then [] else [UnsupportedTypeMessage(item)])
      ensures cachedOrderIds == if converted.Some? then RefreshEntry(old(cachedOrderIds), converted.value)
                                else old(cachedOrderIds)
    {
      converted := Convert(item, mappers);
      if converted.None? {
        messages := messages + [UnsupportedTypeMessage(item)];
      } else {
        RefreshCachedEntry(converted.value);
      }
    }

    /**
     * `GetOpenOrders` over the items the REST API returned: converts the
     * supported items, raises an error for each other one, and lets each
     * open order refresh the cached entry that carries its broker id.
     */
    method GetOpenOrders(items: seq<OpenOrderItem>) returns (list: seq<Order>)
      modifies this`cachedOrderIds, this`messages
      ensures list == OpenOrders(items, mappers)
      ensures messages == old(messages) + UnsupportedMessages(items)
      ensures cachedOrderIds == RefreshCache(old(cachedOrderIds), list)
    {
      list := [];
      var i := 0;
      while i < |items|
        invariant 0 <= i <= |items|
        invariant list == OpenOrders(items[..i], mappers)
        invariant messages == old(messages) + UnsupportedMessages(items[..i])
        invariant cachedOrderIds == RefreshCache(old(cachedOrderIds), list)
      {
        ghost var before := (list, cachedOrderIds, messages);
        var converted := ProcessOpenOrderItem(items[i]);
        OpenOrdersLoopStep(items, i, mappers, old(cachedOrderIds), old(messages),
                           before.0, before.1, before.2, converted, cachedOrderIds, messages);
        if converted.Some? {
          list := list + [converted.value];
        }
        i := i + 1;
      }
      assert items[..i] == items;
    }

    /** `UpdateOrder`: never supported; callers must cancel and place a new order. */
    function UpdateOrder(order: Order): (r: Result<bool, BrokerageException>)
      ensures r.Failure? && r.error.NotSupportedException?
      ensures r.error.message == "BinanceBrokerage.UpdateOrder: Order update not supported. Please cancel and re-create."
    {
      Failure(NotSupportedException("BinanceBrokerage.UpdateOrder: Order update not supported. Please cancel and re-create."))
    }
  }
}
