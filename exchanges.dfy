/**
 * `Exchanges.GetPrimaryExchange`: resolution of an exchange name or one-letter
 * code to a Lean exchange, per security type. The name is upper-cased before
 * each table is consulted; the market is compared as it is.
 */
module Exchanges {
  import opened Wrappers
  import opened Text
  import opened Global

  datatype Exchange =
    | UNKNOWN
    // equity venues
    | NASDAQ | BATS | ARCA | NYSE | NSX | NSE | FINRA | ISE | CSE | CBOE | AMEX | SIAC
    | EDGA | EDGX | NASDAQ_BX | NASDAQ_PSX | BATS_Y | BOSTON | BSE
    // option venues
    | AMEX_Options | MIAX | ISE_GEMINI | ISE_MERCURY | OPRA | C2
    // future and future-option venues
    | CME | CBOT | NYMEX | ICE | CFE | COMEX

  /** The names that resolve according to the market: NSX in the USA, NSE in India. */
  const NsxNames: set<string> := {"C", "NSX", "NSE"}

  /** Every name the equity table lists. */
  const EquityNames: set<string> :=
    {"T", "Q", "NASDAQ", "NASDAQ_OMX", "Z", "BATS", "BATS Z", "BATS_Z", "P", "ARCA",
     "N", "NYSE", "C", "NSX", "NSE", "D", "FINRA", "I", "ISE", "M", "CSE", "W", "CBOE",
     "A", "AMEX", "SIAC", "J", "EDGA", "K", "EDGX", "B", "NASDAQ BX", "NASDAQ_BX",
     "X", "NASDAQ PSX", "NASDAQ_PSX", "Y", "BATS Y", "BATS_Y", "BOSTON", "BSE"}

  /** Every name the option table lists. */
  const OptionNames: set<string> :=
    {"A", "AMEX", "MIAX", "I", "ISE", "H", "ISE GEMINI", "ISE_GEMINI", "J", "ISE MERCURY",
     "ISE_MERCURY", "O", "OPRA", "W", "C2"}

  /** Every name the table shared by futures and future options lists. */
  const FutureNames: set<string> := {"CME", "CBOT", "NYMEX", "ICE", "CFE", "COMEX"}

  const OptionExchanges: set<Exchange> := {AMEX_Options, MIAX, ISE, ISE_GEMINI, ISE_MERCURY, OPRA, C2}

  const FutureExchanges: set<Exchange> := {CME, CBOT, NYMEX, ICE, CFE, COMEX}

  /** The equity table, for an already upper-cased name. */
  function EquityExchange(name: string, market: string): Exchange
  {
    if name in {"T", "Q", "NASDAQ", "NASDAQ_OMX"} then NASDAQ
    else if name in {"Z", "BATS", "BATS Z", "BATS_Z"} then BATS
    else if name in {"P", "ARCA"} then ARCA
    else if name in {"N", "NYSE"} then NYSE
    else if name in NsxNames then
      (if market == USA then NSX else if market == India then NSE else UNKNOWN)
    else if name in {"D", "FINRA"} then FINRA
    else if name in {"I", "ISE"} then ISE
    else if name in {"M", "CSE"} then CSE
    else if name in {"W", "CBOE"} then CBOE
    else if name in {"A", "AMEX"} then AMEX
    else if name == "SIAC" then SIAC
    else if name in {"J", "EDGA"} then EDGA
    else if name in {"K", "EDGX"} then EDGX
    else if name in {"B", "NASDAQ BX", "NASDAQ_BX"} then NASDAQ_BX
    else if name in {"X", "NASDAQ PSX", "NASDAQ_PSX"} then NASDAQ_PSX
    else if name in {"Y", "BATS Y", "BATS_Y"} then BATS_Y
    else if name == "BOSTON" then BOSTON
    else if name == "BSE" then BSE
    else UNKNOWN
  }

  /** The option table, for an already upper-cased name. */
  function OptionExchange(name: string): Exchange
  {
    if name in {"A", "AMEX"} then AMEX_Options
    else if name == "MIAX" then MIAX
    else if name in {"I", "ISE"} then ISE
    else if name in {"H", "ISE GEMINI", "ISE_GEMINI"} then ISE_GEMINI
    else if name in {"J", "ISE MERCURY", "ISE_MERCURY"} then ISE_MERCURY
    else if name in {"O", "OPRA"} then OPRA
    else if name in {"W", "C2"} then C2
    else UNKNOWN
  }

  /** The table shared by futures and future options, for an already upper-cased name. */
  function FutureExchange(name: string): Exchange
  {
    if name == "CME" then CME
    else if name == "CBOT" then CBOT
    else if name == "NYMEX" then NYMEX
    else if name == "ICE" then ICE
    else if name == "CFE" then CFE
    else if name == "COMEX" then COMEX
    else UNKNOWN
  }

  /** `GetPrimaryExchange(exchange, securityType, market)`; `None` is a null exchange string. */
  function GetPrimaryExchange(exchange: Option<string>, securityType: SecurityType := SecurityType.Equity,
                              market: string := USA): (r: Exchange)
    ensures exchange.None? || exchange == Some("") ==> r == UNKNOWN
    ensures securityType !in {SecurityType.Equity, SecurityType.Option, Future, FutureOption} ==> r == UNKNOWN
    ensures securityType == SecurityType.Option ==> r in OptionExchanges + {UNKNOWN}
    ensures securityType in {Future, FutureOption} ==> r in FutureExchanges + {UNKNOWN}
  {
    match exchange
    case None => UNKNOWN
    case Some(name) =>
      if name == "" then UNKNOWN
      else if securityType == SecurityType.Equity then EquityExchange(ToUpper(name), market)
      else if securityType == SecurityType.Option then OptionExchange(ToUpper(name))
      else if securityType == Future || securityType == FutureOption then FutureExchange(ToUpper(name))
      else UNKNOWN
  }

  /**
   * `GetPrimaryExchangeCodeGetPrimaryExchange`: the code of the resolved
   * exchange. The code of each exchange is given by `code`.
   */
  function GetPrimaryExchangeCode(code: Exchange -> string, exchange: Option<string>,
                                  securityType: SecurityType := SecurityType.Equity, market: string := USA): (r: string)
    ensures exchange.None? || exchange == Some("") ==> r == code(UNKNOWN)
    ensures securityType !in {SecurityType.Equity, SecurityType.Option, Future, FutureOption} ==> r == code(UNKNOWN)
  {
    code(GetPrimaryExchange(exchange, securityType, market))
  }

  /** Names that differ only in letter case resolve to the same exchange, for every type and market. */
  lemma CaseInsensitive(a: string, b: string, securityType: SecurityType, market: string)
    requires ToUpper(a) == ToUpper(b)
    ensures GetPrimaryExchange(Some(a), securityType, market) == GetPrimaryExchange(Some(b), securityType, market)
  {
    assert |a| == |b|;
  }

  /** In particular a name resolves as its upper-cased form does. */
  lemma ResolvesAsUpperCase(name: string, securityType: SecurityType, market: string)
    ensures GetPrimaryExchange(Some(name), securityType, market)
         == GetPrimaryExchange(Some(ToUpper(name)), securityType, market)
  {
    ToUpperIdempotent(name);
    CaseInsensitive(name, ToUpper(name), securityType, market);
  }

  /** For equities, "C", "NSX" and "NSE" (in any case) depend on the market alone. */
  lemma NsxDependsOnMarket(name: string, market: string)
    requires ToUpper(name) in NsxNames
    ensures var r := GetPrimaryExchange(Some(name), SecurityType.Equity, market);
      (market == USA ==> r == NSX) &&
      (market == India ==> r == NSE) &&
      (market != USA && market != India ==> r == UNKNOWN)
  {
  }

  /** The market is compared exactly: "USA" is not `Market.USA`. */
  lemma MarketIsCaseSensitive()
    ensures GetPrimaryExchange(Some("c"), SecurityType.Equity, "USA") == UNKNOWN
    ensures GetPrimaryExchange(Some("c")) == NSX
  {
    assert ToUpper("c") == "C";
  }

  /** One code, two venues: "W" and "A" mean different exchanges for equities and options. */
  lemma SameCodePerSecurityType()
    ensures GetPrimaryExchange(Some("W"), SecurityType.Equity, USA) == CBOE
    ensures GetPrimaryExchange(Some("W"), SecurityType.Option, USA) == C2
    ensures GetPrimaryExchange(Some("A"), SecurityType.Equity, USA) == AMEX
    ensures GetPrimaryExchange(Some("A"), SecurityType.Option, USA) == AMEX_Options
  {
    assert ToUpper("W") == "W";
    assert ToUpper("A") == "A";
  }

  /** Futures and future options share one table, and ignore the market. */
  lemma FuturesShareTable(exchange: Option<string>, m1: string, m2: string)
    ensures GetPrimaryExchange(exchange, Future, m1) == GetPrimaryExchange(exchange, FutureOption, m2)
  {
  }

  /** An option name resolves to a venue exactly when the option table lists its upper-cased form. */
  lemma OptionKnownIffListed(name: string, market: string)
    requires name != ""
    ensures GetPrimaryExchange(Some(name), SecurityType.Option, market) != UNKNOWN <==> ToUpper(name) in OptionNames
  {
  }

  /** A future name resolves to a venue exactly when the futures table lists its upper-cased form. */
  lemma FutureKnownIffListed(name: string, market: string)
    requires name != ""
    ensures GetPrimaryExchange(Some(name), Future, market) != UNKNOWN <==> ToUpper(name) in FutureNames
  {
  }

  /**
   * An equity name resolves to a venue exactly when the equity table lists
   * its upper-cased form, except that the market-dependent names need the
   * USA or India market.
   */
  lemma EquityKnownIffListed(name: string, market: string)
    requires name != ""
    ensures GetPrimaryExchange(Some(name), SecurityType.Equity, market) != UNKNOWN
        <==> ToUpper(name) in EquityNames && (ToUpper(name) in NsxNames ==> market == USA || market == India)
  {
    var u := ToUpper(name);
    if EquityExchange(u, market) != UNKNOWN {
      EquityKnownIsListed(u, market);
    }
    if u in EquityNames && (u in NsxNames ==> market == USA || market == India) {
      EquityListedIsKnown(u, market);
    }
  }

  lemma EquityKnownIsListed(u: string, market: string)
    requires EquityExchange(u, market) != UNKNOWN
    ensures u in EquityNames && (u in NsxNames ==> market == USA || market == India)
  {
  }

  lemma EquityListedIsKnown(u: string, market: string)
    requires u in EquityNames && (u in NsxNames ==> market == USA || market == India)
    ensures EquityExchange(u, market) != UNKNOWN
  {
  }
}
