/**
 * The order bookkeeping of the Binance brokerage, as values: the wire-tag
 * dispatch of open orders, the refresh of the cached order table by open
 * orders, and the update of that table when the exchange acknowledges a
 * submitted order.
 */
module BinanceOrders {
  import opened Wrappers
  import opened Text
  import opened Decimals
  import opened Global

  datatype OrderStatus =
    | New | Submitted | PartiallyFilled | Filled | Canceled | None | Invalid | CancelPending | UpdateSubmitted
  {
    /** `OrderStatus.IsOpen()`: neither filled, canceled nor invalid. */
    predicate IsOpen() { !(Filled? || Canceled? || Invalid?) }
  }

  /** The statuses taken as open: every one except Filled, Canceled and Invalid. */
  lemma OpenStatuses()
    ensures New.IsOpen() && Submitted.IsOpen() && PartiallyFilled.IsOpen() && OrderStatus.None.IsOpen()
    ensures CancelPending.IsOpen() && UpdateSubmitted.IsOpen()
    ensures !Filled.IsOpen() && !Canceled.IsOpen() && !Invalid.IsOpen()
  {
  }

  /** The order shapes the brokerage reconstructs, with their type-specific prices. */
  datatype OrderKind =
    | MarketOrder
    | LimitOrder(limitPrice: Decimal)
    | StopMarketOrder(stopPrice: Decimal)
    | StopLimitOrder(stopPrice: Decimal, limitPrice: Decimal)

  /** A Lean order; `id` is the internal identifier, `brokerId` the exchange's identifiers. */
  datatype Order = Order(
    id: int,
    kind: OrderKind,
    quantity: Decimal,
    brokerId: seq<string>,
    symbol: Symbol,
    time: int,
    status: OrderStatus,
    price: Decimal)

  /** An open order as the REST API reports it; `time` is a Unix timestamp in milliseconds. */
  datatype OpenOrderItem = OpenOrderItem(
    id: string,
    orderType: string,
    price: Decimal,
    stopPrice: Decimal,
    quantity: Decimal,
    symbol: string,
    time: int,
    status: string)

  /**
   * The translations the brokerage delegates: the symbol mapper from an
   * exchange ticker to a Lean crypto symbol on the Binance market, and the
   * conversion of the exchange's order status.
   */
  datatype Mappers = Mappers(leanSymbol: string -> Symbol, orderStatus: string -> OrderStatus)

  datatype BrokerageMessageType = Information | Warning | Error | Reconnect | Disconnect

  datatype BrokerageMessageEvent = BrokerageMessageEvent(messageType: BrokerageMessageType, code: string, message: string)

  /** The upper-cased wire tags `GetOpenOrders` understands. */
  const SupportedTypes: set<string> :=
    {"MARKET", "LIMIT", "LIMIT_MAKER", "STOP_LOSS", "TAKE_PROFIT", "STOP_LOSS_LIMIT", "TAKE_PROFIT_LIMIT"}

  predicate Supported(item: OpenOrderItem)
  {
    ToUpper(item.orderType) in SupportedTypes
  }

  /** The order shape a wire tag (in any case) denotes; `None` for an unsupported tag. */
  function OrderKindOf(orderType: string, price: Decimal, stopPrice: Decimal): (r: Option<OrderKind>)
    ensures r.Some? <==> ToUpper(orderType) in SupportedTypes
  {
    var tag := ToUpper(orderType);
    if tag == "MARKET" then Some(MarketOrder)
    else if tag == "LIMIT" || tag == "LIMIT_MAKER" then Some(LimitOrder(price))
    else if tag == "STOP_LOSS" || tag == "TAKE_PROFIT" then Some(StopMarketOrder(stopPrice))
    else if tag == "STOP_LOSS_LIMIT" || tag == "TAKE_PROFIT_LIMIT" then Some(StopLimitOrder(stopPrice, price))
    else Option.None
  }

  /** The dispatch table. */
  lemma OrderKindTable(orderType: string, price: Decimal, stopPrice: Decimal)
    ensures var tag, r := ToUpper(orderType), OrderKindOf(orderType, price, stopPrice);
      && (tag == "MARKET" ==> r == Some(MarketOrder))
      && (tag == "LIMIT" || tag == "LIMIT_MAKER" ==> r == Some(LimitOrder(price)))
      && (tag == "STOP_LOSS" || tag == "TAKE_PROFIT" ==> r == Some(StopMarketOrder(stopPrice)))
      && (tag == "STOP_LOSS_LIMIT" || tag == "TAKE_PROFIT_LIMIT" ==> r == Some(StopLimitOrder(stopPrice, price)))
  {
  }

  /** Tags that differ only in letter case denote the same order shape. */
  lemma OrderKindCaseInsensitive(a: string, b: string, price: Decimal, stopPrice: Decimal)
    requires ToUpper(a) == ToUpper(b)
    ensures OrderKindOf(a, price, stopPrice) == OrderKindOf(b, price, stopPrice)
  {
  }

  /**
   * The Lean order built for a supported item: one broker id, the item's price,
   * a zero internal id, the mapped symbol and the converted status.
   */
  function ToOrder(item: OpenOrderItem, kind: OrderKind, mappers: Mappers): (o: Order)
    ensures o.brokerId == [item.id] && o.price == item.price && o.quantity == item.quantity
    ensures o.id == 0 && o.kind == kind && o.time == item.time
    ensures o.status == mappers.orderStatus(item.status) && o.symbol == mappers.leanSymbol(item.symbol)
  {
    Order(0, kind, item.quantity, [item.id], mappers.leanSymbol(item.symbol), item.time,
          mappers.orderStatus(item.status), item.price)
  }

  /** The item as an order, or `None` when its tag is unsupported. */
  function Convert(item: OpenOrderItem, mappers: Mappers): (r: Option<Order>)
    ensures r.Some? <==> Supported(item)
    ensures r.Some? ==> OrderKindOf(item.orderType, item.price, item.stopPrice) == Some(r.value.kind)
  {
    match OrderKindOf(item.orderType, item.price, item.stopPrice)
    case Some(kind) => Some(ToOrder(item, kind, mappers))
    case None => Option.None
  }

  const UnsupportedTypePrefix: string := "BinanceBrokerage.GetOpenOrders: Unsupported order type returned from brokerage: "

  /** The error event raised for an item with an unsupported tag. */
  function UnsupportedTypeMessage(item: OpenOrderItem): (m: BrokerageMessageEvent)
    ensures m.messageType == Error && m.code == "-1"
    ensures |m.message| >= |UnsupportedTypePrefix| && m.message[..|UnsupportedTypePrefix|] == UnsupportedTypePrefix
    ensures m.message[|UnsupportedTypePrefix|..] == item.orderType
  {
    BrokerageMessageEvent(Error, "-1",
      UnsupportedTypePrefix + item.orderType)
  }

  /** The list `GetOpenOrders` returns for `items`. */
  function OpenOrders(items: seq<OpenOrderItem>, mappers: Mappers): (r: seq<Order>)
    ensures |r| <= |items|
    ensures forall j :: 0 <= j < |r| ==> |r[j].brokerId| == 1
  {
    if items == [] then []
    else
      var last := items[|items| - 1];
      OpenOrders(items[..|items| - 1], mappers)
      + (match Convert(last, mappers) case Some(o) => [o] case None => [])
  }

  /** The messages `GetOpenOrders` raises for `items`: one per unsupported item, in order. */
  function UnsupportedMessages(items: seq<OpenOrderItem>): (r: seq<BrokerageMessageEvent>)
    ensures |r| <= |items|
    ensures forall j :: 0 <= j < |r| ==>
      r[j].messageType == Error && r[j].code == "-1"
  {
    if items == [] then []
    else
      var last := items[|items| - 1];
      UnsupportedMessages(items[..|items| - 1])
      + (if Supported(last) then [] else [UnsupportedTypeMessage(last)])
  }

  /** The positions of the items whose tag is supported (or, for `supported == false`, unsupported), in increasing order. */
  ghost function Positions(items: seq<OpenOrderItem>, supported: bool): seq<nat>
  {
    if items == [] then []
    else
      Positions(items[..|items| - 1], supported)
      + (if Supported(items[|items| - 1]) == supported then [|items| - 1] else [])
  }

  /** `Positions` lists exactly the positions of the wanted kind, each once, in increasing order. */
  lemma {:induction false} PositionsExact(items: seq<OpenOrderItem>, supported: bool)
    ensures forall j :: 0 <= j < |Positions(items, supported)| ==> Positions(items, supported)[j] < |items|
    ensures forall j, k :: 0 <= j < k < |Positions(items, supported)| ==>
      Positions(items, supported)[j] < Positions(items, supported)[k]
    ensures forall i :: 0 <= i < |items| ==> (i in Positions(items, supported) <==> Supported(items[i]) == supported)
  {
    if items != [] {
      var init := items[..|items| - 1];
      PositionsExact(init, supported);
      assert forall i :: 0 <= i < |init| ==> items[i] == init[i];
    }
  }

  /**
   * The returned orders are exactly the supported items, converted, in input
   * order: the j-th order comes from the j-th supported item.
   */
  lemma {:induction false} OpenOrdersAreSupportedItems(items: seq<OpenOrderItem>, mappers: Mappers)
    ensures |OpenOrders(items, mappers)| == |Positions(items, true)|
    ensures forall j :: 0 <= j < |OpenOrders(items, mappers)| ==>
      Positions(items, true)[j] < |items| &&
      Convert(items[Positions(items, true)[j]], mappers) == Some(OpenOrders(items, mappers)[j])
  {
    if items != [] {
      var init := items[..|items| - 1];
      OpenOrdersAreSupportedItems(init, mappers);
      PositionsExact(init, true);
      assert forall i :: 0 <= i < |init| ==> items[i] == init[i];
    }
  }

  /**
   * The raised messages are exactly one error per unsupported item, in input
   * order: the j-th message names the j-th unsupported item's tag.
   */
  lemma {:induction false} MessagesAreUnsupportedItems(items: seq<OpenOrderItem>)
    ensures |UnsupportedMessages(items)| == |Positions(items, false)|
    ensures forall j :: 0 <= j < |UnsupportedMessages(items)| ==>
      Positions(items, false)[j] < |items| &&
      !Supported(items[Positions(items, false)[j]]) &&
      UnsupportedMessages(items)[j] == UnsupportedTypeMessage(items[Positions(items, false)[j]])
  {
    if items != [] {
      var init := items[..|items| - 1];
      MessagesAreUnsupportedItems(init);
      PositionsExact(init, false);
      assert forall i :: 0 <= i < |init| ==> items[i] == init[i];
    }
  }

  /** The orders and the error messages together number exactly the items. */
  lemma {:induction false} EveryItemAccountedFor(items: seq<OpenOrderItem>, mappers: Mappers)
    ensures |OpenOrders(items, mappers)| + |UnsupportedMessages(items)| == |items|
  {
    if items != [] {
      EveryItemAccountedFor(items[..|items| - 1], mappers);
    }
  }

  /** The cached orders whose broker ids contain `brokerId`. */
  function MatchingIds(cache: map<int, Order>, brokerId: string): (ids: set<int>)
    ensures forall k :: k in ids <==> k in cache && brokerId in cache[k].brokerId
  {
    set k | k in cache && brokerId in cache[k].brokerId
  }

  /** Some element of a non-empty set. */
  lemma Pick(s: set<int>) returns (x: int)
    requires s != {}
    ensures x in s
  {
    if forall y :: y !in s {
      assert false;
    }
    x :| x in s;
  }

  /** The least element of a finite set of order ids that contains `seed`. */
  ghost function Least(s: set<int>, seed: int): (m: int)
    requires seed in s
    ensures m in s && forall k :: k in s ==> m <= k
    decreases |s|
  {
    if forall k :: k in s ==> seed <= k then seed
    else
      var w :| w in s && w < seed;
      assert w in s - {seed};
      var y := Least(s - {seed}, w);
      assert forall k :: k in s ==> k == seed || k in s - {seed};
      y
  }

  /** Some cached order's broker ids contain `brokerId`. */
  ghost predicate HasMatch(cache: map<int, Order>, brokerId: string)
  {
    exists k :: k in cache && brokerId in cache[k].brokerId
  }

  /**
   * The cache after one returned order: an open order replaces the first
   * cached entry (in id order) whose broker ids contain the order's broker
   * id; otherwise nothing changes.
   */
  ghost function RefreshEntry(cache: map<int, Order>, order: Order): (r: map<int, Order>)
    requires order.brokerId != []
    ensures r.Keys == cache.Keys
    ensures var ids := MatchingIds(cache, order.brokerId[0]);
      if order.status.IsOpen() && HasMatch(cache, order.brokerId[0]) then
        exists k :: k in ids && (forall j :: j in ids ==> k <= j) && r == cache[k := order]
      else r == cache
  {
    var ids := MatchingIds(cache, order.brokerId[0]);
    if order.status.IsOpen() && HasMatch(cache, order.brokerId[0]) then
      var seed :| seed in ids;
      cache[Least(ids, seed) := order]
    else cache
  }

  /** The cache after `GetOpenOrders` has gone through the returned orders, in order. */
  ghost function RefreshCache(cache: map<int, Order>, orders: seq<Order>): (r: map<int, Order>)
    requires forall j :: 0 <= j < |orders| ==> orders[j].brokerId != []
    ensures r.Keys == cache.Keys
    ensures forall k :: k in r ==> r[k] == cache[k] || r[k] in orders
  {
    if orders == [] then cache
    else RefreshEntry(RefreshCache(cache, orders[..|orders| - 1]), orders[|orders| - 1])
  }

  /** When the cached entries matching an open order are known, the refresh replaces the least of them. */
  lemma RefreshEntryReplacesLeast(cache: map<int, Order>, order: Order, first: int)
    requires order.brokerId != [] && order.status.IsOpen()
    requires first in MatchingIds(cache, order.brokerId[0])
    requires forall j :: j in MatchingIds(cache, order.brokerId[0]) ==> first <= j
    ensures RefreshEntry(cache, order) == cache[first := order]
  {
    assert HasMatch(cache, order.brokerId[0]);
  }

  /** A closed order, or one no cached entry matches, leaves the cache as it was. */
  lemma RefreshEntryKeeps(cache: map<int, Order>, order: Order)
    requires order.brokerId != []
    requires !order.status.IsOpen() || MatchingIds(cache, order.brokerId[0]) == {}
    ensures RefreshEntry(cache, order) == cache
  {
    if HasMatch(cache, order.brokerId[0]) {
      var k :| k in cache && order.brokerId[0] in cache[k].brokerId;
      assert k in MatchingIds(cache, order.brokerId[0]);
    }
  }

  /** Going through one more returned order refreshes one more entry. */
  lemma RefreshCacheStep(cache: map<int, Order>, orders: seq<Order>, order: Order)
    requires forall j :: 0 <= j < |orders| ==> orders[j].brokerId != []
    requires order.brokerId != []
    ensures RefreshCache(cache, orders + [order]) == RefreshEntry(RefreshCache(cache, orders), order)
  {
    assert (orders + [order])[..|orders|] == orders;
  }

  /** Going through one more item adds its order or its error message. */
  lemma OpenOrdersStep(items: seq<OpenOrderItem>, i: nat, mappers: Mappers)
    requires i < |items|
    ensures OpenOrders(items[..i + 1], mappers) ==
      OpenOrders(items[..i], mappers) + (match Convert(items[i], mappers) case Some(o) => [o] case None => [])
    ensures UnsupportedMessages(items[..i + 1]) ==
      UnsupportedMessages(items[..i]) + (if Supported(items[i]) then [] else [UnsupportedTypeMessage(items[i])])
  {
    assert items[..i + 1][..i] == items[..i];
  }

  /** One pass of the `GetOpenOrders` loop keeps the returned list, the raised messages and the cache in step with the items seen. */
  lemma OpenOrdersLoopStep(
    items: seq<OpenOrderItem>, i: nat, mappers: Mappers, cache0: map<int, Order>, messages0: seq<BrokerageMessageEvent>,
    list: seq<Order>, cache: map<int, Order>, messages: seq<BrokerageMessageEvent>,
    converted: Option<Order>, cache': map<int, Order>, messages': seq<BrokerageMessageEvent>)
    requires i < |items|
    requires list == OpenOrders(items[..i], mappers)
    requires messages == messages0 + UnsupportedMessages(items[..i])
    requires cache == RefreshCache(cache0, list)
    requires converted == Convert(items[i], mappers)
    requires messages' == messages + (if Supported(items[i]) then [] else [UnsupportedTypeMessage(items[i])])
    requires cache' == if converted.Some? then RefreshEntry(cache, converted.value) else cache
    ensures var list' := if converted.Some? then list + [converted.value] else list;
      && list' == OpenOrders(items[..i + 1], mappers)
      && messages' == messages0 + UnsupportedMessages(items[..i + 1])
      && cache' == RefreshCache(cache0, list')
  {
    OpenOrdersStep(items, i, mappers);
    var step := if Supported(items[i]) then [] else [UnsupportedTypeMessage(items[i])];
    assert messages' == messages0 + (UnsupportedMessages(items[..i]) + step);
    if converted.Some? {
      assert list + [converted.value] == OpenOrders(items[..i + 1], mappers);
      RefreshCacheStep(cache0, list, converted.value);
    } else {
      assert list == OpenOrders(items[..i + 1], mappers);
    }
  }

  /** Orders that are not open leave the cache as it was. */
  lemma {:induction false} ClosedOrdersKeepCache(cache: map<int, Order>, orders: seq<Order>)
    requires forall j :: 0 <= j < |orders| ==> orders[j].brokerId != [] && !orders[j].status.IsOpen()
    ensures RefreshCache(cache, orders) == cache
  {
    if orders != [] {
      ClosedOrdersKeepCache(cache, orders[..|orders| - 1]);
    }
  }

  /**
   * The status reported for each item decides the refresh: when every item
   * converts to a status that is not open, `GetOpenOrders` leaves the cache
   * as it was.
   */
  lemma ClosedItemsKeepCache(cache: map<int, Order>, items: seq<OpenOrderItem>, mappers: Mappers)
    requires forall i :: 0 <= i < |items| ==> !mappers.orderStatus(items[i].status).IsOpen()
    ensures RefreshCache(cache, OpenOrders(items, mappers)) == cache
  {
    var orders := OpenOrders(items, mappers);
    OpenOrdersAreSupportedItems(items, mappers);
    forall j | 0 <= j < |orders|
      ensures !orders[j].status.IsOpen()
    {
      var i := Positions(items, true)[j];
      assert Convert(items[i], mappers) == Some(orders[j]);
    }
    ClosedOrdersKeepCache(cache, orders);
  }

  /** An entry that no returned order's broker id points to is left as it was. */
  lemma {:induction false} UnmatchedEntriesKept(cache: map<int, Order>, orders: seq<Order>, k: int)
    requires forall j :: 0 <= j < |orders| ==> orders[j].brokerId != []
    requires k in cache
    requires forall j :: 0 <= j < |orders| ==> orders[j].brokerId[0] !in cache[k].brokerId
    ensures RefreshCache(cache, orders)[k] == cache[k]
  {
    if orders != [] {
      UnmatchedEntriesKept(cache, orders[..|orders| - 1], k);
    }
  }

  /**
   * `OnOrderSubmit`: an order already cached gets `[brokerId]` as its broker
   * ids; any other order gets `brokerId` appended to its own and is cached
   * under its id. No other entry changes.
   */
  function Submit(cache: map<int, Order>, order: Order, brokerId: string): (r: map<int, Order>)
    ensures r.Keys == cache.Keys + {order.id}
    ensures order.id in cache ==> r[order.id] == cache[order.id].(brokerId := [brokerId])
    ensures order.id !in cache ==> r[order.id] == order.(brokerId := order.brokerId + [brokerId])
    ensures forall k :: k in cache && k != order.id ==> r[k] == cache[k]
  {
    if order.id in cache then
      cache[order.id := cache[order.id].(brokerId := [brokerId])]
    else
      cache[order.id := order.(brokerId := order.brokerId + [brokerId])]
  }

  /** After a submission acknowledgement the order's latest broker id is `brokerId`. */
  lemma SubmitRecordsBrokerId(cache: map<int, Order>, order: Order, brokerId: string)
    ensures var r := Submit(cache, order, brokerId);
      order.id in r && |r[order.id].brokerId| > 0 && r[order.id].brokerId[|r[order.id].brokerId| - 1] == brokerId
  {
  }

  /** Acknowledging the same broker id twice is acknowledging it once, for an order already cached. */
  lemma SubmitTwice(cache: map<int, Order>, order: Order, brokerId: string)
    requires order.id in cache
    ensures Submit(Submit(cache, order, brokerId), order, brokerId) == Submit(cache, order, brokerId)
  {
  }
}
