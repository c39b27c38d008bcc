/** Market data (backend/finance.py): ticker normalisation, the price fallbacks, the 24-hour
    change guard and the price-history list built from the history rows. The `yfinance`
    lookup is the `feed` parameter: for a symbol it gives the `info` dict and the 7-day
    history rows, either of which may instead raise. Prices are exact reals; the source's
    `round(…, 2)` is not modelled. */
module Finance {
  import opened Common

  const Crypto: string := "crypto"
  const UsdSuffix: string := "-USD"
  const DefaultCurrency: string := "USD"
  const FetchErrorPrefix: string := "Failed to fetch data for "

  /** The crypto normalisation at the top of `get_ticker_data`. */
  function NormaliseTicker(ticker: string, assetType: string): (t: string)
    ensures assetType == Crypto ==> EndsWith(t, UsdSuffix)
    ensures assetType != Crypto || EndsWith(ticker, UsdSuffix) ==> t == ticker
    ensures t == ticker || t == ticker + UsdSuffix
  {
    if assetType == Crypto && !EndsWith(ticker, UsdSuffix) then ticker + UsdSuffix else ticker
  }

  lemma NormaliseTickerIdempotent(ticker: string, assetType: string)
    ensures NormaliseTicker(NormaliseTicker(ticker, assetType), assetType) == NormaliseTicker(ticker, assetType)
  {
  }

  /** The keys of `stock.info` that the module reads; `None` is an absent key. */
  datatype Info = Info(
    regularMarketPrice: Option<real>,
    currentPrice: Option<real>,
    regularMarketPreviousClose: Option<real>,
    previousClose: Option<real>,
    shortName: Option<string>,
    marketCap: Option<real>,
    volume: Option<real>,
    currency: Option<string>)

  /** One row of `stock.history(...)`: its index as an ISO timestamp and its `Close`. */
  datatype HistoryRow = HistoryRow(timestamp: string, close: real)

  /** A value the lookup produced, or the message of the exception it raised. */
  datatype Fetch<T> = Fetched(value: T) | Raised(message: string)

  /** What `yf.Ticker(symbol)` yields: its info and its history. */
  datatype Quote = Quote(info: Fetch<Info>, history: Fetch<seq<HistoryRow>>)

  datatype PricePoint = PricePoint(timestamp: string, price: real)

  /** The `data` dict of a successful lookup. */
  datatype MarketData = MarketData(
    ticker: string,
    name: string,
    currentPrice: real,
    previousClose: real,
    change24hPercent: real,
    marketCap: Option<real>,
    volume: Option<real>,
    priceHistory: seq<PricePoint>,
    currency: string)

  datatype MarketResult = MarketOk(data: MarketData) | MarketFailure(error: string)

  /** `info.get(primary) or info.get(secondary, 0)`: a missing or zero primary value falls
      back to the secondary one, and a missing secondary one to 0. */
  function PriceOr(primary: Option<real>, secondary: Option<real>): (p: real)
    ensures primary.Some? && primary.value != 0.0 ==> p == primary.value
    ensures (primary.None? || primary.value == 0.0) ==> p == secondary.GetOr(0.0)
  {
    if primary.Some? && primary.value != 0.0 then primary.value else secondary.GetOr(0.0)
  }

  /** The 24-hour change in percent: 0 unless the previous close is positive, and then the
      percentage that takes the previous close to the current price. */
  function Change24h(current: real, previous: real): (c: real)
    ensures previous <= 0.0 ==> c == 0.0
    ensures previous > 0.0 ==> previous + previous * c / 100.0 == current
  {
    if previous > 0.0 then
      var c := ((current - previous) / previous) * 100.0;
      assert previous * c / 100.0 == current - previous by {
        assert previous * ((current - previous) / previous) == current - previous;
      }
      c
    else 0.0
  }

  function PointOf(row: HistoryRow): PricePoint {
    PricePoint(row.timestamp, row.close)
  }

  /** The list the loop over `history.iterrows()` builds, one append per row. */
  function PriceHistory(rows: seq<HistoryRow>): seq<PricePoint>
    decreases |rows|
  {
    if rows == [] then [] else PriceHistory(rows[..|rows| - 1]) + [PointOf(rows[|rows| - 1])]
  }

  /** `price_history` has one point per history row, in row order. */
  lemma {:induction false} PriceHistoryPointwise(rows: seq<HistoryRow>)
    ensures |PriceHistory(rows)| == |rows|
    ensures forall i :: 0 <= i < |rows| ==> PriceHistory(rows)[i] == PointOf(rows[i])
    decreases |rows|
  {
    if rows != [] {
      PriceHistoryPointwise(rows[..|rows| - 1]);
    }
  }

  /** The loop of `get_ticker_data` that fills `price_history`. */
  method BuildPriceHistory(rows: seq<HistoryRow>) returns (priceHistory: seq<PricePoint>)
    ensures priceHistory == PriceHistory(rows)
    ensures |priceHistory| == |rows|
    ensures forall i :: 0 <= i < |rows| ==> priceHistory[i] == PricePoint(rows[i].timestamp, rows[i].close)
  {
    priceHistory := [];
    var i := 0;
    while i < |rows|
      invariant 0 <= i <= |rows|
      invariant priceHistory == PriceHistory(rows[..i])
    {
      assert rows[..i + 1][..i] == rows[..i];
      priceHistory := priceHistory + [PricePoint(rows[i].timestamp, rows[i].close)];
      i := i + 1;
    }
    assert rows[..i] == rows;
    PriceHistoryPointwise(rows);
  }

  function FetchError(ticker: string, message: string): string {
    FetchErrorPrefix + ticker + ": " + message
  }

  /** What `get_ticker_data` returns. */
  function TickerData(ticker: string, assetType: string, feed: string -> Quote): (r: MarketResult)
    ensures var t := NormaliseTicker(ticker, assetType);
      && (r.MarketOk? <==> feed(t).info.Fetched? && feed(t).history.Fetched?)
      && (r.MarketFailure? ==> FetchErrorPrefix + t <= r.error)
      && (r.MarketOk? ==>
            var info := feed(t).info.value;
            && r.data.ticker == t
            && r.data.name == info.shortName.GetOr(t)
            && r.data.currency == info.currency.GetOr(DefaultCurrency)
            && r.data.currentPrice == PriceOr(info.regularMarketPrice, info.currentPrice)
            && r.data.previousClose == PriceOr(info.regularMarketPreviousClose, info.previousClose)
            && r.data.change24hPercent == Change24h(r.data.currentPrice, r.data.previousClose)
            && r.data.marketCap == info.marketCap && r.data.volume == info.volume
            && r.data.priceHistory == PriceHistory(feed(t).history.value))
  {
    var t := NormaliseTicker(ticker, assetType);
    var quote := feed(t);
    match quote.info
    case Raised(m) => MarketFailure(FetchError(t, m))
    case Fetched(info) =>
      match quote.history
      case Raised(m) => MarketFailure(FetchError(t, m))
      case Fetched(rows) =>
        var current := PriceOr(info.regularMarketPrice, info.currentPrice);
        var previous := PriceOr(info.regularMarketPreviousClose, info.previousClose);
        MarketOk(MarketData(
          t,
          info.shortName.GetOr(t),
          current,
          previous,
          Change24h(current, previous),
          info.marketCap,
          info.volume,
          PriceHistory(rows),
          info.currency.GetOr(DefaultCurrency)))
  }

  /** `get_ticker_data`, run statement by statement; the `except` clause is the match on
      each lookup that raised. */
  method GetTickerData(ticker: string, assetType: string, feed: string -> Quote) returns (r: MarketResult)
    ensures r == TickerData(ticker, assetType, feed)
  {
    var symbol := ticker;
    if assetType == Crypto && !EndsWith(symbol, UsdSuffix) {
      symbol := symbol + UsdSuffix;
    }
    var quote := feed(symbol);
    if quote.info.Raised? {
      return MarketFailure(FetchError(symbol, quote.info.message));
    }
    var info := quote.info.value;
    var current := PriceOr(info.regularMarketPrice, info.currentPrice);
    var previous := PriceOr(info.regularMarketPreviousClose, info.previousClose);
    var change := 0.0;
    if previous > 0.0 {
      change := ((current - previous) / previous) * 100.0;
    }
    if quote.history.Raised? {
      return MarketFailure(FetchError(symbol, quote.history.message));
    }
    var priceHistory := BuildPriceHistory(quote.history.value);
    r := MarketOk(MarketData(
      symbol,
      info.shortName.GetOr(symbol),
      current,
      previous,
      change,
      info.marketCap,
      info.volume,
      priceHistory,
      info.currency.GetOr(DefaultCurrency)));
  }

  /** `validate_ticker`: the symbol, as given, has a quoted price. */
  function ValidateTicker(ticker: string, feed: string -> Quote): (valid: bool)
    ensures valid <==> (feed(ticker).info.Fetched? &&
      (feed(ticker).info.value.regularMarketPrice.Some? || feed(ticker).info.value.currentPrice.Some?))
  {
    match feed(ticker).info
    case Raised(_) => false
    case Fetched(info) => info.regularMarketPrice.Some? || info.currentPrice.Some?
  }

  /** A stock symbol that fails validation, yet whose lookup succeeds, reports a current
      price of 0: both price keys are missing from its info. */
  lemma UnvalidatedTickerHasNoPrice(ticker: string, assetType: string, feed: string -> Quote)
    requires assetType != Crypto
    requires !ValidateTicker(ticker, feed)
    ensures TickerData(ticker, assetType, feed).MarketOk? ==> TickerData(ticker, assetType, feed).data.currentPrice == 0.0
  {
  }
}
