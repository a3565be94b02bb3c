# Lean: exchange resolution, holdings and Binance brokerage bookkeeping

This project models two pieces of the Lean trading engine in Dafny and proves
properties about them.

The first piece comes from `Common/Global.cs`:

- `Exchanges.GetPrimaryExchange` resolves an exchange name or one-letter code
  to a Lean exchange. It uses one table per security type, upper-cases the name
  first, and has one branch that depends on the market (`wrappers.dfy`,
  `text.dfy`, `exchanges.dfy`).
- The `Holding` value object rounds prices with a precision chosen per security
  type, clones its eight fields and renders itself as text with an optional
  conversion suffix (`decimals.dfy`, `holding.dfy`).
- The ordered enums `Resolution` and `PositionSide` (`global.dfy`).

The second piece is the bookkeeping of the Binance brokerage, from
`Brokerages/Binance/BinanceBrokerage.cs` (`binance_orders.dfy`,
`binance_brokerage.dfy`):

- The table of cached orders: `OnOrderSubmit` and the cache refresh inside
  `GetOpenOrders`.
- The dispatch from a wire tag to an order kind, which skips unknown tags.
- The request-id counter.
- The SUBSCRIBE and UNSUBSCRIBE frames.
- The subscribability test and the data-queue subscribe and unsubscribe.
- The guards and the bar mapping of `GetHistory`.
- `UpdateOrder`, which is never supported.

How the model represents the source:

- **Decimals.** A C# `decimal` is a mantissa plus a scale of 0 to 28.
  `Math.Round` is banker's rounding: a tie goes to the even neighbour.
  `ToString` prints exactly `scale` fraction digits. Equality compares values,
  so `1.00m == 1m`.
- **Case mapping.** `LazyToUpper` and `ToLowerInvariant` map ASCII letters and
  leave every other character as it is.
- **The brokerage.** The brokerage is a class. Its fields are the cached-order
  map, the last request id, and logs of the events it raises, the frames it
  sends and the calls it makes to its data aggregator and subscription manager.
- **Request ids.** A request id is a C# `long`. Incrementing it wraps from the
  largest value to the smallest.

## Model

| member | source | states |
|---|---|---|
| Global.Resolution.Ordinal | Common/Global.cs:439-451 | The underlying values run 0 to 4 in declaration order, and only `Tick` has 0. |
| Global.Resolution.SpanMilliseconds | Brokerages/Binance/BinanceBrokerage.cs:277 | The span of a bar is zero exactly for `Tick`, and otherwise a whole number of seconds. |
| Global.SpanFollowsOrder | Common/Global.cs:436-451 | The enum is sorted from the smallest to the largest resolution: a lower ordinal means a strictly shorter span, in both directions. |
| Global.Resolution.Name | Brokerages/Binance/BinanceBrokerage.cs:266 | A resolution prints as its declared member name, so at least four characters. |
| Global.ResolutionNamesDistinct | Brokerages/Binance/BinanceBrokerage.cs:266 | Distinct resolutions print differently, so the warning names the refused resolution. |
| Global.TickType.Name | Brokerages/Binance/BinanceBrokerage.cs:273 | A tick type prints as its declared member name, so at least five characters. |
| Global.TickTypeNamesDistinct | Brokerages/Binance/BinanceBrokerage.cs:273 | Distinct tick types print differently. |
| Global.PositionSide.Value | Common/Global.cs:456-472 | The values are -1, 0 and 1, and 0 is `None`. |
| Global.PositionSideOrdered | Common/Global.cs:456-472 | Distinct sides have distinct values, ordered Short < None < Long. |
| Text.ToUpper | Common/Global.cs:745 | Upper-casing keeps the length and maps each character on its own; no lower-case letter remains. |
| Text.ToUpperIdempotent | Common/Global.cs:745 | Upper-casing twice is upper-casing once. |
| Text.ToLower | Brokerages/Binance/BinanceBrokerage.cs:521-522 | Lower-casing keeps the length and maps each character on its own: ASCII upper-case letters to lower case, everything else unchanged. |
| Text.Contains | Brokerages/Binance/BinanceBrokerage.cs:376 | The substring test is true exactly when `sub` occurs at some index of `s`. |
| Exchanges.GetPrimaryExchange | Common/Global.cs:733-867 | A null or empty name gives UNKNOWN. A security type other than Equity, Option, Future or FutureOption gives UNKNOWN. Options resolve only to option venues, and futures only to futures venues. |
| Exchanges.GetPrimaryExchangeCode | Common/Global.cs:721-726 | The code of the resolved exchange. A null or empty name, or a security type without a table, gives UNKNOWN's code. |
| Exchanges.CaseInsensitive | Common/Global.cs:743-864 | Names that agree once upper-cased resolve to the same exchange, for every security type and market. |
| Exchanges.ResolvesAsUpperCase | Common/Global.cs:743-864 | A name resolves as its upper-cased form does. |
| Exchanges.NsxDependsOnMarket | Common/Global.cs:763-774 | For equities, "C", "NSX" and "NSE" give NSX in the USA, NSE in India and UNKNOWN elsewhere. |
| Exchanges.MarketIsCaseSensitive | Common/Global.cs:766-774 | The market is compared exactly: "USA" is not the `usa` market. |
| Exchanges.SameCodePerSecurityType | Common/Global.cs:784-841 | "W" is CBOE for equities and C2 for options; "A" is AMEX for equities and AMEX_Options for options. |
| Exchanges.FuturesShareTable | Common/Global.cs:846-866 | Futures and future options resolve every name alike, whatever the market. |
| Exchanges.OptionKnownIffListed | Common/Global.cs:816-844 | A non-empty option name resolves to a venue if and only if its upper-cased form is in the option table. |
| Exchanges.FutureKnownIffListed | Common/Global.cs:846-864 | A non-empty future name resolves to a venue if and only if its upper-cased form is in the futures table. |
| Exchanges.EquityKnownIffListed | Common/Global.cs:743-815 | A non-empty equity name resolves to a venue if and only if its upper-cased form is in the equity table, and, for "C", "NSX" or "NSE", the market is the USA or India. |
| Decimals.IsOne | Common/Global.cs:168 | The test `!= 1m` compares values: a decimal is one exactly when it has the same value as 1, at any scale. |
| Decimals.RoundHalfEven | Common/Global.cs:135-137 | The rounded quotient is within half a unit of the exact one, and a tie goes to the even neighbour. |
| Decimals.RoundHalfEvenUnique | Common/Global.cs:135-137 | Only one integer is within half a unit and even on a tie, so banker's rounding is determined. |
| Decimals.Round | Common/Global.cs:135-137 | The result has at most `places` digits and is within half a unit of the last kept place; on an exact tie its last digit is even. A value that already has at most `places` digits is unchanged. |
| Decimals.RoundToMaxScale | Common/Global.cs:128-131 | Rounding to 28 places changes nothing, so crypto prices are kept as they are. |
| Decimals.RoundIdempotent | Common/Global.cs:135-137 | Rounding twice to the same places is rounding once. |
| Decimals.Format | Common/Global.cs:164-170 | The text starts with '-' exactly for negative values. When the scale is positive, a '.' stands exactly `scale` characters from the end; at scale 0 there is no '.'. |
| Decimals.FormatShowsDigits | Common/Global.cs:164-170 | Without its sign and its point, the text is the padded digit string of the mantissa, and those digits denote the magnitude of the mantissa. |
| Decimals.PaddedDigits | Common/Global.cs:164-170 | More than `scale` decimal digits, with no leading zero unless exactly one digit stands before the point. |
| Decimals.PaddedDigitsValue | Common/Global.cs:164-170 | The zero-padded digits of the mantissa denote its magnitude. |
| Text.NatToString | Common/Global.cs:164-170 | At least one digit, all of them decimal digits, and no leading zero for a positive number. |
| Text.NatToStringValue | Common/Global.cs:164-170 | The decimal digits written for `n` denote `n`, read most significant first. |
| Text.LeadingZeros | Common/Global.cs:164-170 | Leading zeros do not change the value of a digit string. |
| Decimals.FormatExamples | Common/Global.cs:164-170 | 1.50, -0.005 and 42 print as "1.50", "-0.005" and "42". |
| Holdings.PricePlaces | Common/Global.cs:123-132 | Prices keep 5 places for Forex, Cfd and Index, 28 for Crypto and 2 otherwise. |
| Holdings.ConversionSuffixIff | Common/Global.cs:164-173 | The description extends the summary with " - Conversion: ..." if and only if the rate is null or different from one. |
| Holdings.ConversionSuffixExamples | Common/Global.cs:168-171 | A rate of 1.00 adds no suffix; a null rate adds " - Conversion: " with nothing after it. |
| Holdings.Holding.Type | Common/Global.cs:73 | The holding's security type is the one its symbol carries. |
| Holdings.Holding.constructor | Common/Global.cs:103-106 | A default holding has the currency symbol "$", the empty symbol, zero amounts and no conversion rate. |
| Holdings.Holding.FromSecurity | Common/Global.cs:112-138 | Every field is copied or rounded from the security. Prices are rounded to the places of the security type and the P/L to 2 places. Crypto prices are unchanged. |
| Holdings.Holding.Clone | Common/Global.cs:144-157 | The clone is a new object whose eight fields equal the original's. |
| Holdings.Holding.ToString | Common/Global.cs:162-174 | The text is the summary, extended exactly when the conversion rate is not one. |
| BinanceOrders.OpenStatuses | Brokerages/Binance/BinanceBrokerage.cs:197 | Every status is open except Filled, Canceled and Invalid. |
| BinanceOrders.OrderKindOf | Brokerages/Binance/BinanceBrokerage.cs:163-187 | A tag yields an order kind if and only if its upper-cased form is one of the seven supported tags. |
| BinanceOrders.OrderKindTable | Brokerages/Binance/BinanceBrokerage.cs:163-183 | MARKET gives a market order. LIMIT and LIMIT_MAKER give a limit order at the price. STOP_LOSS and TAKE_PROFIT give a stop-market order at the stop price. STOP_LOSS_LIMIT and TAKE_PROFIT_LIMIT give a stop-limit order. |
| BinanceOrders.OrderKindCaseInsensitive | Brokerages/Binance/BinanceBrokerage.cs:163 | Tags that differ only in letter case give the same order kind. |
| BinanceOrders.ToOrder | Brokerages/Binance/BinanceBrokerage.cs:189-195 | The order carries `[item.Id]` as its broker ids, the item's price, quantity and time, the mapped symbol, and the converted status that later decides the cache refresh. |
| BinanceOrders.Convert | Brokerages/Binance/BinanceBrokerage.cs:163-195 | An item converts to an order if and only if its tag is supported; the order has the shape its tag dispatches to. |
| BinanceOrders.OpenOrders | Brokerages/Binance/BinanceBrokerage.cs:156-210 | There are at most as many orders as items, and each order has exactly one broker id. |
| BinanceOrders.PositionsExact | Brokerages/Binance/BinanceBrokerage.cs:160-187 | The positions of the supported (or of the unsupported) items are listed once each, in increasing order, and no other position is listed. |
| BinanceOrders.OpenOrdersAreSupportedItems | Brokerages/Binance/BinanceBrokerage.cs:160-206 | The returned list holds exactly the supported items, converted, in input order. |
| BinanceOrders.UnsupportedTypeMessage | Brokerages/Binance/BinanceBrokerage.cs:184-187 | An Error event with code "-1" whose text is the fixed prefix followed by the item's tag. |
| BinanceOrders.UnsupportedMessages | Brokerages/Binance/BinanceBrokerage.cs:184-187 | At most one message per item, each an Error event with code "-1". |
| BinanceOrders.MessagesAreUnsupportedItems | Brokerages/Binance/BinanceBrokerage.cs:184-187 | The raised messages are exactly one per unsupported item, in input order: the j-th names the tag of the j-th unsupported item. |
| BinanceOrders.EveryItemAccountedFor | Brokerages/Binance/BinanceBrokerage.cs:184-206 | The orders and the error messages together number exactly the items. |
| BinanceOrders.MatchingIds | Brokerages/Binance/BinanceBrokerage.cs:199 | The ids selected are exactly the cached orders whose broker ids contain the given id. |
| BinanceOrders.RefreshEntry | Brokerages/Binance/BinanceBrokerage.cs:197-204 | An open order with a match replaces the first matching entry. Otherwise the cache is unchanged. The key set never changes. |
| BinanceOrders.RefreshEntryReplacesLeast | Brokerages/Binance/BinanceBrokerage.cs:199-203 | For an open order, the entry replaced is the least matching id. |
| BinanceOrders.RefreshEntryKeeps | Brokerages/Binance/BinanceBrokerage.cs:197-204 | A closed order, or one with no match, leaves the cache as it was. |
| BinanceOrders.RefreshCache | Brokerages/Binance/BinanceBrokerage.cs:160-206 | Refreshing keeps the key set. Every entry afterwards is its old value or one of the returned orders. |
| BinanceOrders.ClosedOrdersKeepCache | Brokerages/Binance/BinanceBrokerage.cs:197 | If no returned order is open, the cache is unchanged. |
| BinanceOrders.ClosedItemsKeepCache | Brokerages/Binance/BinanceBrokerage.cs:160-206 | If every item's converted status is Filled, Canceled or Invalid, the open-order pass leaves the cache unchanged. |
| BinanceOrders.UnmatchedEntriesKept | Brokerages/Binance/BinanceBrokerage.cs:199-203 | An entry that no returned broker id points to keeps its value. |
| BinanceOrders.Submit | Brokerages/Binance/BinanceBrokerage.cs:574-588 | A cached order's broker ids become exactly `[brokerId]`. An uncached order gets `brokerId` appended and is inserted under its id. No other entry changes. |
| BinanceOrders.SubmitRecordsBrokerId | Brokerages/Binance/BinanceBrokerage.cs:578-586 | After a submission the order is cached and its last broker id is `brokerId`. |
| BinanceOrders.SubmitTwice | Brokerages/Binance/BinanceBrokerage.cs:578-582 | For a cached order, acknowledging the same broker id twice is acknowledging it once. |
| Binance.NextRequestId | Brokerages/Binance/BinanceBrokerage.cs:565-568 | The next id is the previous one plus one, wrapping from the largest `long` to the smallest. |
| Binance.IssuedIds | Brokerages/Binance/BinanceBrokerage.cs:565-568 | `n` successive calls hand out `n` ids: the first follows `last`, and each later one follows the one before. |
| Binance.IssuedIdsIncrease | Brokerages/Binance/BinanceBrokerage.cs:565-568 | Until the counter wraps, successive ids are `last+1, last+2, ...`, strictly increasing. |
| Binance.StreamNames | Brokerages/Binance/BinanceBrokerage.cs:518-522 | Two distinct stream names: the lower-cased symbol followed by "@trade", and the lower-cased symbol followed by "@bookTicker". |
| Binance.StreamNamesCaseInsensitive | Brokerages/Binance/BinanceBrokerage.cs:518-522 | Symbols that agree once lower-cased share their streams. |
| Binance.DistinctSymbolsDistinctStreams | Brokerages/Binance/BinanceBrokerage.cs:518-522 | Symbols that differ once lower-cased have no stream in common. |
| Binance.StreamFrame | Brokerages/Binance/BinanceBrokerage.cs:515-549 | The frame has the given method ("SUBSCRIBE" or "UNSUBSCRIBE"), the two stream names of the symbol and the given id. |
| Binance.CanSubscribe | Brokerages/Binance/BinanceBrokerage.cs:374-379 | True if and only if "UNIVERSE" does not occur in the value, the type is Crypto and the market is `binance`. |
| Binance.CanSubscribeExamples | Brokerages/Binance/BinanceBrokerage.cs:376-378 | The match on "UNIVERSE" is case-sensitive, and so is the match on the market. |
| Binance.GetHistory | Brokerages/Binance/BinanceBrokerage.cs:261-295 | Tick or Second resolution gives one InvalidResolution warning and no bars. A non-trade tick type gives one InvalidTickType warning and no bars. Otherwise there is one bar per kline, in order, with the kline's prices, `Value == Close` and the resolution's period of at least a minute. |
| Binance.HistoryWarnsOrReturns | Brokerages/Binance/BinanceBrokerage.cs:263-276 | History either warns once or returns bars, never both. |
| Binance.BinanceBrokerage.constructor | Brokerages/Binance/BinanceBrokerage.cs:48 | A new brokerage has an empty order cache, a last request id of 0 (the default of `_lastRequestId`), and nothing raised, sent or forwarded yet. |
| Binance.BinanceBrokerage.GetNextRequestId | Brokerages/Binance/BinanceBrokerage.cs:565-568 | The counter advances by one (wrapping) and the new value is returned. |
| Binance.BinanceBrokerage.SubscribeStreams | Brokerages/Binance/BinanceBrokerage.cs:513-530 | Returns true. One SUBSCRIBE frame carrying the next request id is sent on the given socket. |
| Binance.BinanceBrokerage.UnsubscribeStreams | Brokerages/Binance/BinanceBrokerage.cs:536-553 | Returns true. One UNSUBSCRIBE frame carrying the next request id is sent on the given socket. |
| Binance.BinanceBrokerage.Subscribe | Brokerages/Binance/BinanceBrokerage.cs:346-357 | Subscribes exactly when `CanSubscribe` holds. It then adds the config to the aggregator and to the subscription manager, in that order; otherwise it calls neither. |
| Binance.BinanceBrokerage.Unsubscribe | Brokerages/Binance/BinanceBrokerage.cs:363-367 | Removes the config from the subscription manager, then from the aggregator. |
| Binance.BinanceBrokerage.OnOrderSubmit | Brokerages/Binance/BinanceBrokerage.cs:574-588 | The cache becomes `Submit` of the old cache, the order and the broker id. |
| Binance.BinanceBrokerage.RefreshCachedEntry | Brokerages/Binance/BinanceBrokerage.cs:197-204 | The cache becomes `RefreshEntry` of the old cache and the order. |
| Binance.BinanceBrokerage.ProcessOpenOrderItem | Brokerages/Binance/BinanceBrokerage.cs:162-204 | An item converts as `Convert` says. An unsupported item raises its one error message; a converted order refreshes the cache. |
| Binance.BinanceBrokerage.GetOpenOrders | Brokerages/Binance/BinanceBrokerage.cs:156-210 | The list is `OpenOrders` of the items. The messages gain `UnsupportedMessages` of the items. The cache is refreshed by each returned order in turn. |
| Binance.BinanceBrokerage.UpdateOrder | Brokerages/Binance/BinanceBrokerage.cs:234-237 | Always fails with NotSupportedException and its fixed message. |

## Left out

- Code that is not part of this model. The source only constructs or calls
  these, so their behaviour is not modelled:
  - the multi-connection subscription manager, the concurrent message handler
    (`WithLockedStream`) and `DataQueueHandlerManager`;
  - `Exchange.Code`, `OrderStatus.IsOpen`, `ConvertOrderStatus`, the symbol
    mapper, `Currencies.GetCurrencySymbol` and `Resolution.ToTimeSpan`.
- How those collaborators are stood in for:
  - `Exchange.Code`, the symbol mapper, `ConvertOrderStatus` and
    `Currencies.GetCurrencySymbol` are function parameters.
  - `IsOpen` is taken to mean neither Filled, Canceled nor Invalid.
  - `ToTimeSpan` is taken to give the usual spans.
  - Calls to the aggregator and the manager are recorded in a log.
- `Symbol.Empty` is taken to be an empty Base symbol with an empty market.
- Markets are taken to be the lower-case names "usa", "india" and "binance".
- Network and REST I/O is left out: every `ApiClient` call, `FetchSymbolWeights`
  (HTTP download and JSON parsing), WebSocket connection handling,
  `Connect`/`Disconnect`, and `PlaceOrder`/`CancelOrder`, which call the API
  client inside the message handler's `WithLockedStream` (itself left out, see
  above). Open orders and klines are inputs.
- Timers, the rate gate, the lazy client and `Interlocked` atomicity are left
  out. Sending a frame appends it to the `sent` log; JSON serialisation and
  logging are left out.
- The `protected override Subscribe(IEnumerable<Symbol>)` of the websockets base
  class is unused and only returns true; it is left out.
  The same goes for the strategy files and the DataQueueHandlerManager tests.
- Static tables and constants are left out: `DateFormat`, `USHoliday.Dates`,
  and the server-type, language, status and channel enums.
- Orders are values, so the model does not capture aliasing of order objects:
  the order passed to `OnOrderSubmit` is itself mutated and shared with the
  cache, and `GetOpenOrders` puts the same object into the cache and into the
  list it returns (BinanceBrokerage.cs:202, :206). A later `OnOrderSubmit` for
  that order rewrites the broker ids of the caller's list entry in the source;
  in the model the returned list keeps the broker ids it was built with.
- `OnOrderSubmit` runs as an event handler of the API client, while
  `GetOpenOrders` reads the cached broker ids without a lock. The model runs the
  brokerage's methods one at a time and does not capture an interleaving with
  the non-atomic `Clear()`/`Add` of the broker ids (BinanceBrokerage.cs:580-581).
- Decimal mantissas are unbounded integers; the 96-bit limit of `decimal` is not
  modelled.
- Upper- and lower-casing handle ASCII letters only. The source uses the
  invariant culture, which also maps non-ASCII letters (é to É); that mapping of
  non-ASCII characters is not modelled.
- Binance.GetHistory: the source yields lazily, and its warnings go through
  `OnMessage` when the sequence is enumerated. The model returns the warnings and
  the bars together as one value.
- Binance.GetHistory: bar times are Unix milliseconds; conversion to
  `DateTime` is not modelled.
- BinanceOrders.RefreshEntry: the source replaces the first match in the
  enumeration order of a `ConcurrentDictionary`, which is unspecified. The model
  takes the least order id.
- BinanceOrders.ToOrder: the internal order id is 0, which is the default of a
  new order. The symbol comes from the mapper parameter; the source passes Crypto
  and the Binance market to it, and the model does not. Order times stay in Unix
  milliseconds; conversion to `DateTime` is not modelled.
