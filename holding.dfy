/**
 * `Holding`: a snapshot of one position, built from a security's holdings with
 * per-type price precision, cloned field by field and rendered as text.
 */
module Holdings {
  import opened Wrappers
  import opened Decimals
  import opened Global

  /** The holdings of a security, as the `Holding(Security)` constructor reads them. */
  datatype SecurityHolding = SecurityHolding(
    symbol: Symbol,
    quantity: Decimal,
    holdingsValue: Decimal,
    averagePrice: Decimal,
    price: Decimal,
    unrealizedProfit: Decimal)
  {
    function Type(): SecurityType { symbol.securityType }
  }

  /** A currency of the cash book: its code and its conversion rate into the account currency. */
  datatype Cash = Cash(symbol: string, conversionRate: Decimal)

  datatype Security = Security(holdings: SecurityHolding, quoteCurrency: Cash)

  /** The eight public fields of a `Holding`, as one value. */
  datatype HoldingFields = HoldingFields(
    symbol: Symbol,
    currencySymbol: string,
    averagePrice: Decimal,
    quantity: Decimal,
    marketPrice: Decimal,
    conversionRate: Option<Decimal>,
    marketValue: Decimal,
    unrealizedPnL: Decimal)

  /** Decimal places kept for average and market prices of a security type. */
  function PricePlaces(t: SecurityType): (p: Scale)
    ensures t in {Forex, Cfd, Index} ==> p == 5
    ensures t == Crypto ==> p == MaxScale
    ensures t !in {Forex, Cfd, Index, Crypto} ==> p == 2
  {
    if t == Forex || t == Cfd || t == Index then 5
    else if t == Crypto then 28
    else 2
  }

  /** `ConversionRate != 1m`, where a null rate is different from one. */
  predicate ShowsConversion(rate: Option<Decimal>)
  {
    rate.None? || !IsOne(rate.value)
  }

  /** The interpolation of a nullable decimal: empty for null. */
  function FormatOptional(rate: Option<Decimal>): string
  {
    match rate
    case None => ""
    case Some(d) => Format(d)
  }

  /** "<symbol>: <quantity> @ <currency><average> - Market: <currency><market price>" */
  function Summary(f: HoldingFields): string
  {
    f.symbol.value + ": " + Format(f.quantity) + " @ "
    + f.currencySymbol + Format(f.averagePrice) + " - "
    + "Market: " + f.currencySymbol + Format(f.marketPrice)
  }

  /** The text of `Holding.ToString()`. */
  function Describe(f: HoldingFields): string
  {
    Summary(f) + (if ShowsConversion(f.conversionRate) then " - Conversion: " + FormatOptional(f.conversionRate) else "")
  }

  /** The conversion suffix is appended exactly when the rate is null or not numerically one. */
  lemma ConversionSuffixIff(f: HoldingFields)
    ensures Describe(f) == Summary(f) <==> !ShowsConversion(f.conversionRate)
    ensures ShowsConversion(f.conversionRate) ==>
      Describe(f) == Summary(f) + " - Conversion: " + FormatOptional(f.conversionRate)
  {
    if ShowsConversion(f.conversionRate) {
      assert |Describe(f)| > |Summary(f)|;
    }
  }

  /** A rate of 1.00 is one: no suffix; a null rate is not: a suffix with nothing after the colon. */
  lemma ConversionSuffixExamples(f: HoldingFields)
    ensures f.conversionRate == Some(Decimal(100, 2)) ==> Describe(f) == Summary(f)
    ensures f.conversionRate.None? ==> Describe(f) == Summary(f) + " - Conversion: "
  {
    if f.conversionRate == Some(Decimal(100, 2)) {
      assert Pow10(2) == 100;
      assert !ShowsConversion(f.conversionRate);
    }
  }

  class Holding {
    var symbol: Symbol
    var currencySymbol: string
    var averagePrice: Decimal
    var quantity: Decimal
    var marketPrice: Decimal
    var conversionRate: Option<Decimal>
    var marketValue: Decimal
    var unrealizedPnL: Decimal

    /** The security type, read from the symbol. */
    function Type(): (t: SecurityType)
      reads this
      ensures t == Fields().symbol.securityType
    {
      symbol.securityType
    }

    function Fields(): HoldingFields
      reads this
    {
      HoldingFields(symbol, currencySymbol, averagePrice, quantity, marketPrice,
                    conversionRate, marketValue, unrealizedPnL)
    }

    /** A default holding: empty symbol, zero amounts, no conversion rate, and "$" as currency. */
    constructor ()
      ensures Fields() == HoldingFields(EmptySymbol, "$", Zero, Zero, Zero, Wrappers.Option.None, Zero, Zero)
    {
      symbol := EmptySymbol;
      averagePrice, quantity, marketPrice := Zero, Zero, Zero;
      conversionRate := Wrappers.Option.None;
      marketValue, unrealizedPnL := Zero, Zero;
      currencySymbol := "$";
    }

    /**
     * `Holding(Security)`. `currencySymbolOf` stands for `Currencies.GetCurrencySymbol`.
     * Prices are rounded to 5 places for Forex, Cfd and Index, left as they are for
     * Crypto (28 places) and rounded to 2 places otherwise; the P/L always to 2.
     */
    constructor FromSecurity(security: Security, currencySymbolOf: string -> string)
      ensures var h := security.holdings;
        && symbol == h.symbol
        && quantity == h.quantity
        && marketValue == h.holdingsValue
        && currencySymbol == currencySymbolOf(security.quoteCurrency.symbol)
        && conversionRate == Some(security.quoteCurrency.conversionRate)
        && averagePrice == Round(h.averagePrice, PricePlaces(h.Type()))
        && marketPrice == Round(h.price, PricePlaces(h.Type()))
        && unrealizedPnL == Round(h.unrealizedProfit, 2)
      ensures security.holdings.Type() == Crypto ==>
        averagePrice == security.holdings.averagePrice && marketPrice == security.holdings.price
      ensures averagePrice.scale <= PricePlaces(Type()) && marketPrice.scale <= PricePlaces(Type())
      ensures unrealizedPnL.scale <= 2
    {
      var holding := security.holdings;
      symbol := holding.symbol;
      quantity := holding.quantity;
      marketValue := holding.holdingsValue;
      currencySymbol := currencySymbolOf(security.quoteCurrency.symbol);
      conversionRate := Some(security.quoteCurrency.conversionRate);
      averagePrice, marketPrice, unrealizedPnL := Zero, Zero, Zero;

      var rounding: Scale := 2;
      if holding.Type() == Forex || holding.Type() == Cfd || holding.Type() == Index {
        rounding := 5;
      } else if holding.Type() == Crypto {
        rounding := 28;
      }

      averagePrice := Round(holding.averagePrice, rounding);
      marketPrice := Round(holding.price, rounding);
      unrealizedPnL := Round(holding.unrealizedProfit, 2);
    }

    /** A new holding whose eight fields equal this one's. */
    method Clone() returns (h: Holding)
      ensures fresh(h)
      ensures h.Fields() == Fields()
    {
      h := new Holding();
      h.averagePrice := averagePrice;
      h.symbol := symbol;
      h.quantity := quantity;
      h.marketPrice := marketPrice;
      h.marketValue := marketValue;
      h.unrealizedPnL := unrealizedPnL;
      h.conversionRate := conversionRate;
      h.currencySymbol := currencySymbol;
    }

    /** `ToString()`: the summary, then " - Conversion: <rate>" unless the rate is one. */
    method ToString() returns (value: string)
      ensures value == Describe(Fields())
      ensures value[..|Summary(Fields())|] == Summary(Fields())
      ensures value != Summary(Fields()) <==> ShowsConversion(conversionRate)
    {
      value := Summary(Fields());

      if conversionRate.None? || !IsOne(conversionRate.value) {
        value := value + " - Conversion: " + FormatOptional(conversionRate);
      }
      ConversionSuffixIff(Fields());
    }
  }
}
