/**
 * The enums and the symbol shape from Common/Global.cs that the rest of the
 * model uses: security types, data resolutions (ordered from the finest to
 * the coarsest), tick types and position sides.
 */
module Global {

  datatype SecurityType =
    | Base | Equity | Option | Commodity | Forex | Future | Cfd | Crypto
    | FutureOption | Index | IndexOption

  /** Resolution of requested data, declared from the smallest to the largest. */
  datatype Resolution = Tick | Second | Minute | Hour | Daily
  {
    /** The enum's underlying value (declaration order). */
    function Ordinal(): (n: nat)
      ensures n < 5
      ensures n == 0 <==> Tick?
    {
      match this
      case Tick => 0
      case Second => 1
      case Minute => 2
      case Hour => 3
      case Daily => 4
    }

    /** `ToString()` of the enum value: the member's declared name. */
    function Name(): (s: string)
      ensures |s| >= 4
    {
      match this
      case Tick => "Tick"
      case Second => "Second"
      case Minute => "Minute"
      case Hour => "Hour"
      case Daily => "Daily"
    }

    /**
     * `Resolution.ToTimeSpan()`, in milliseconds: the span one bar of this
     * resolution covers (zero for ticks).
     */
    function SpanMilliseconds(): (ms: nat)
      ensures ms == 0 <==> Tick?
      ensures !Tick? ==> ms % 1000 == 0
    {
      match this
      case Tick => 0
      case Second => 1000
      case Minute => 60 * 1000
      case Hour => 60 * 60 * 1000
      case Daily => 24 * 60 * 60 * 1000
    }
  }

  /** A finer resolution (lower ordinal) always covers a strictly shorter span. */
  lemma SpanFollowsOrder(a: Resolution, b: Resolution)
    ensures a.Ordinal() < b.Ordinal() <==> a.SpanMilliseconds() < b.SpanMilliseconds()
  {
  }

  datatype TickType = Trade | Quote | OpenInterest
  {
    /** `ToString()` of the enum value: the member's declared name. */
    function Name(): (s: string)
      ensures |s| >= 5
    {
      match this
      case Trade => "Trade"
      case Quote => "Quote"
      case OpenInterest => "OpenInterest"
    }
  }

  /** Distinct resolutions print differently, so a warning names the resolution it refused. */
  lemma ResolutionNamesDistinct(a: Resolution, b: Resolution)
    ensures a.Name() == b.Name() <==> a == b
  {
  }

  /** Distinct tick types print differently. */
  lemma TickTypeNamesDistinct(a: TickType, b: TickType)
    ensures a.Name() == b.Name() <==> a == b
  {
  }

  datatype MarketDataType = Base | TradeBar | Tick | Auxiliary | QuoteBar | OptionChain | FuturesChain

  /** The side of a position; its underlying value is the sign of the held quantity. */
  datatype PositionSide = Short | None | Long
  {
    function Value(): (v: int)
      ensures -1 <= v <= 1
      ensures v == 0 <==> this == None
    {
      match this
      case Short => -1
      case None => 0
      case Long => 1
    }
  }

  /** Distinct sides have distinct underlying values, ordered Short < None < Long. */
  lemma PositionSideOrdered(a: PositionSide, b: PositionSide)
    ensures a == b <==> a.Value() == b.Value()
    ensures a == PositionSide.Short && b != PositionSide.Short ==> a.Value() < b.Value()
    ensures a != PositionSide.Long && b == PositionSide.Long ==> a.Value() < b.Value()
  {
  }

  /** Market names (`Market.USA`, `Market.India`, `Market.Binance`). */
  const USA := "usa"
  const India := "india"
  const BinanceMarket := "binance"

  /** The parts of a Lean `Symbol` the model reads: its ticker value, security type and market. */
  datatype Symbol = Symbol(value: string, securityType: SecurityType, market: string)

  /** `Symbol.Empty`. */
  const EmptySymbol := Symbol("", SecurityType.Base, "")
}
