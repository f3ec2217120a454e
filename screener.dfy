/**
 * The screener endpoints (app/api/v1/screener.py): each maps its query parameters to a
 * service query, gates the premium markets on the plan, truncates free stock results and
 * echoes a selection of the filters. The market-data service is a parameter: what it
 * answers for a query, or the message of the exception it raises. The response timestamp
 * is not modelled.
 */
module Screener {
  import opened Wrappers
  import opened Text
  import opened Sequences
  import Polygon

  /** What a service call gives the handler. */
  datatype Outcome<T> = Returned(rows: seq<T>) | Raised(message: string)

  /** The filters each endpoint echoes. */
  datatype Filters =
    | StockFilters(sortBy: string, minScore: real, minMarketCap: real, sector: string,
                   minDividendYield: real, minPrice: real, maxPrice: real)
    | CryptoFilters(sortBy: string, minMarketCap: real, whaleActivity: string)
    | ForexFilters(sortBy: string, pairType: string, trend: string)
    | OptionFilters(strategy: string, minYield: real, minDte: int)
    | CommodityFilters(sortBy: string, category: string)

  datatype Reply<T> = Ok(data: seq<T>, kind: string, filters: Filters) | Failed(status: int, detail: string)

  const MillionUnits: real := 1000000.0
  const FreeStockRows: nat := 5

  // ---- stocks ----

  datatype StockParams = StockParams(sortBy: string, minScore: real, minMarketCap: real, maxMarketCap: real,
                                     minVolume: real, sector: string, minDividendYield: real,
                                     priceRange: string, page: int, limit: int)

  /** The arguments `screen_stocks` is called with; market caps in units, not millions. */
  datatype StockQuery = StockQuery(sortBy: string, minScore: real, minMarketCap: real, maxMarketCap: real,
                                   minVolume: real, sector: string, minDividendYield: real,
                                   minPrice: real, maxPrice: real, page: int, limit: int)

  /** `min_price, max_price = map(float, priceRange.split(','))`, or (10, 1000) when that
      raises: unless there are exactly two parts and both parse. */
  function PriceRange(priceRange: string): (r: (real, real))
    ensures |Split(priceRange, ',')| != 2 ==> r == (10.0, 1000.0)
    ensures r != (10.0, 1000.0) ==>
      var parts := Split(priceRange, ',');
      |parts| == 2 && ParseFloat(parts[0]) == Some(r.0) && ParseFloat(parts[1]) == Some(r.1)
  {
    var parts := Split(priceRange, ',');
    if |parts| == 2 && ParseFloat(parts[0]).Some? && ParseFloat(parts[1]).Some? then
      (ParseFloat(parts[0]).value, ParseFloat(parts[1]).value)
    else (10.0, 1000.0)
  }

  /** A range written as two integers separated by a comma is read back as those bounds. */
  lemma PriceRangeOfIntegers(lo: int, hi: int)
    ensures PriceRange(IntToString(lo) + "," + IntToString(hi)) == (lo as real, hi as real)
  {
    SplitIntegers(lo, hi);
    ParseFloatOfInt(lo);
    ParseFloatOfInt(hi);
  }

  lemma SplitIntegers(lo: int, hi: int)
    ensures Split(IntToString(lo) + "," + IntToString(hi), ',') == [IntToString(lo), IntToString(hi)]
  {
    var a := IntToString(lo);
    var b := IntToString(hi);
    assert ',' !in a by {
      assert forall k | 0 <= k < |a| :: a[k] != ',';
    }
    assert ',' !in b by {
      assert forall k | 0 <= k < |b| :: b[k] != ',';
    }
    assert a + "," + b == a + [','] + b;
    SplitSeparated(a, b, ',');
    assert IndexOf(b, ',') == |b|;
  }

  /** A range that does not hold exactly one comma falls back to (10, 1000). */
  lemma PriceRangeWithoutComma(priceRange: string)
    requires ',' !in priceRange
    ensures PriceRange(priceRange) == (10.0, 1000.0)
  {
    assert IndexOf(priceRange, ',') == |priceRange|;
  }

  function StockQueryOf(p: StockParams): (q: StockQuery)
    ensures q.minMarketCap / MillionUnits == p.minMarketCap && q.maxMarketCap / MillionUnits == p.maxMarketCap
    ensures q.minVolume == p.minVolume
    ensures (q.minPrice, q.maxPrice) == PriceRange(p.priceRange)
    ensures q.page == p.page && q.limit == p.limit
  {
    var (lo, hi) := PriceRange(p.priceRange);
    StockQuery(p.sortBy, p.minScore, p.minMarketCap * MillionUnits, p.maxMarketCap * MillionUnits,
               p.minVolume, p.sector, p.minDividendYield, lo, hi, p.page, p.limit)
  }

  /** `GET /stocks`: any plan may screen stocks; the free plan sees at most the first five
      rows the service returns, other plans all of them; a raised exception is a 500. */
  function ScreenStocks<T>(plan: string, p: StockParams, service: StockQuery -> Outcome<T>): (r: Reply<T>)
    requires p.page >= 1 && 1 <= p.limit <= 100
    ensures r.Failed? <==> service(StockQueryOf(p)).Raised?
    ensures r.Failed? ==> r.status == 500
    ensures r.Ok? && plan == "free" ==>
      r.data == service(StockQueryOf(p)).rows[..Min(FreeStockRows, |service(StockQueryOf(p)).rows|)]
    ensures r.Ok? && plan == "free" ==>
      |r.data| <= FreeStockRows && r.data <= service(StockQueryOf(p)).rows
    ensures r.Ok? && plan != "free" ==> r.data == service(StockQueryOf(p)).rows
    ensures r.Ok? ==> (r.kind == "stocks" && r.filters.StockFilters? &&
      (r.filters.minPrice, r.filters.maxPrice) == PriceRange(p.priceRange) &&
      r.filters.minMarketCap == p.minMarketCap)
  {
    var q := StockQueryOf(p);
    match service(q)
    case Raised(message) => Failed(500, "Failed to screen stocks: " + message)
    case Returned(rows) =>
      var data := if plan == "free" then rows[..Min(FreeStockRows, |rows|)] else rows;
      Ok(data, "stocks", StockFilters(p.sortBy, p.minScore, p.minMarketCap, p.sector,
                                      p.minDividendYield, q.minPrice, q.maxPrice))
  }

  /** For the same service answer, the free plan sees a prefix of what a paid plan sees. */
  lemma FreeStocksArePrefixOfPaid<T>(p: StockParams, service: StockQuery -> Outcome<T>, paid: string)
    requires p.page >= 1 && 1 <= p.limit <= 100
    requires paid != "free"
    ensures var free := ScreenStocks("free", p, service);
      var full := ScreenStocks(paid, p, service);
      free.Ok? == full.Ok? && (free.Ok? ==> free.data <= full.data && free.filters == full.filters)
  {
  }

  /** The market-data service as the handler calls it: it catches its own failures, so its
      only answers are rows. */
  function PolygonStocks(fetch: string -> Polygon.HttpOutcome, key: string): StockQuery -> Outcome<Polygon.StockRow> {
    (q: StockQuery) => if q.page >= 1 && q.limit >= 0 then Returned(Polygon.ScreenStocksSpec(fetch, key, q.page, q.limit))
         else Raised("")
  }

  /** With the market-data service, the stock screen never answers 500, and a paid plan gets
      the sample rows or at most `limit` rows of the requested page. */
  lemma StocksWithPolygon(plan: string, p: StockParams, fetch: string -> Polygon.HttpOutcome, key: string)
    requires p.page >= 1 && 1 <= p.limit <= 100
    ensures var r := ScreenStocks(plan, p, PolygonStocks(fetch, key));
      r.Ok? && (plan != "free" ==> r.data == Polygon.MockStocks || |r.data| <= p.limit)
  {
    Polygon.ScreenStocksBounded(fetch, key, p.page, p.limit);
  }

  // ---- premium markets ----

  /** The premium screens: a free user gets 403 before the service is called; otherwise
      the service's rows unchanged, or 500 with its message. */
  function Gated<Q, T>(plan: string, market: string, kind: string, query: Q, echo: Filters,
                       service: Q -> Outcome<T>): (r: Reply<T>)
    ensures plan == "free" ==> r == Failed(403, market + " screener requires Pro or Elite plan")
    ensures plan != "free" ==> (r.Ok? <==> service(query).Returned?)
    ensures plan != "free" && r.Ok? ==> r.data == service(query).rows && r.kind == kind && r.filters == echo
    ensures plan != "free" && r.Failed? ==> r.status == 500
  {
    if plan == "free" then Failed(403, market + " screener requires Pro or Elite plan")
    else match service(query)
      case Raised(message) => Failed(500, "Failed to screen " + kind + ": " + message)
      case Returned(rows) => Ok(rows, kind, echo)
  }

  /** The gate does not depend on the service: a free user's request never reaches it. */
  lemma FreeGateIgnoresService<Q, T>(market: string, kind: string, q1: Q, q2: Q, echo1: Filters, echo2: Filters,
                                     s1: Q -> Outcome<T>, s2: Q -> Outcome<T>)
    ensures Gated("free", market, kind, q1, echo1, s1) == Gated("free", market, kind, q2, echo2, s2)
  {
  }

  datatype CryptoParams = CryptoParams(sortBy: string, minMarketCap: real, maxMarketCap: real,
                                       minVolume24h: real, whaleActivity: string, exchangeFlow: string)

  /** Market caps and the 24-hour volume go to the service in units, not millions. */
  function CryptoQueryOf(p: CryptoParams): (q: CryptoParams)
    ensures q.minMarketCap / MillionUnits == p.minMarketCap && q.maxMarketCap / MillionUnits == p.maxMarketCap
    ensures q.minVolume24h / MillionUnits == p.minVolume24h
    ensures q.sortBy == p.sortBy && q.whaleActivity == p.whaleActivity && q.exchangeFlow == p.exchangeFlow
  {
    p.(minMarketCap := p.minMarketCap * MillionUnits, maxMarketCap := p.maxMarketCap * MillionUnits,
       minVolume24h := p.minVolume24h * MillionUnits)
  }

  /** `/crypto`: 403 for a free user; otherwise the service's rows for the query in units,
      echoing three of the filters, or 500. */
  function ScreenCrypto<T>(plan: string, p: CryptoParams, service: CryptoParams -> Outcome<T>): (r: Reply<T>)
    ensures plan == "free" ==> r.Failed? && r.status == 403
    ensures plan != "free" && r.Ok? ==> service(CryptoQueryOf(p)).Returned? && r.data == service(CryptoQueryOf(p)).rows && r.kind == "crypto" && r.filters == CryptoFilters(p.sortBy, p.minMarketCap, p.whaleActivity)
    ensures plan != "free" && r.Failed? ==> service(CryptoQueryOf(p)).Raised? && r.status == 500
  {
    Gated(plan, "Crypto", "crypto", CryptoQueryOf(p), CryptoFilters(p.sortBy, p.minMarketCap, p.whaleActivity), service)
  }

  datatype ForexParams = ForexParams(sortBy: string, pairType: string, minVolatility: real,
                                     maxVolatility: real, trend: string)

  /** `/forex`: 403 for a free user; otherwise the service's rows for the arguments as given. */
  function ScreenForex<T>(plan: string, p: ForexParams, service: ForexParams -> Outcome<T>): (r: Reply<T>)
    ensures plan == "free" ==> r.Failed? && r.status == 403
    ensures plan != "free" && r.Ok? ==> service(p).Returned? && r.data == service(p).rows && r.kind == "forex" && r.filters == ForexFilters(p.sortBy, p.pairType, p.trend)
    ensures plan != "free" && r.Failed? ==> service(p).Raised? && r.status == 500
  {
    Gated(plan, "Forex", "forex", p, ForexFilters(p.sortBy, p.pairType, p.trend), service)
  }

  datatype OptionParams = OptionParams(strategy: string, minYield: real, maxYield: real, minDte: int,
                                       maxDte: int, minIvRank: real, maxIvRank: real)

  /** `/options`: 403 for a free user; otherwise the service's rows for the arguments as given. */
  function ScreenOptions<T>(plan: string, p: OptionParams, service: OptionParams -> Outcome<T>): (r: Reply<T>)
    ensures plan == "free" ==> r.Failed? && r.status == 403
    ensures plan != "free" && r.Ok? ==> service(p).Returned? && r.data == service(p).rows && r.kind == "options" && r.filters == OptionFilters(p.strategy, p.minYield, p.minDte)
    ensures plan != "free" && r.Failed? ==> service(p).Raised? && r.status == 500
  {
    Gated(plan, "Options", "options", p, OptionFilters(p.strategy, p.minYield, p.minDte), service)
  }

  datatype CommodityParams = CommodityParams(sortBy: string, category: string, seasonalPattern: string)

  /** `/commodities`: 403 for a free user; otherwise the service's rows for the arguments as given. */
  function ScreenCommodities<T>(plan: string, p: CommodityParams, service: CommodityParams -> Outcome<T>): (r: Reply<T>)
    ensures plan == "free" ==> r.Failed? && r.status == 403
    ensures plan != "free" && r.Ok? ==> service(p).Returned? && r.data == service(p).rows && r.kind == "commodities" && r.filters == CommodityFilters(p.sortBy, p.category)
    ensures plan != "free" && r.Failed? ==> service(p).Raised? && r.status == 500
  {
    Gated(plan, "Commodities", "commodities", p, CommodityFilters(p.sortBy, p.category), service)
  }

  /** Every premium market answers a free user 403 whatever the service would say; a paid
      user's options request reaches the options service with its strategy. */
  lemma PremiumMarketsForbidFree(crypto: CryptoParams, forex: ForexParams, options: OptionParams,
                                 commodities: CommodityParams)
    ensures ScreenCrypto("free", crypto, (q: CryptoParams) => Returned(Polygon.MockCrypto)).Failed?
    ensures ScreenCrypto("free", crypto, (q: CryptoParams) => Returned(Polygon.MockCrypto)).status == 403
    ensures ScreenForex("free", forex, (q: ForexParams) => Returned(Polygon.MockForex)).status == 403
    ensures ScreenOptions("free", options, (q: OptionParams) => Returned(Polygon.ScreenOptions(
              q.strategy, q.minYield, q.maxYield, q.minDte, q.maxDte, q.minIvRank, q.maxIvRank))).status == 403
    ensures ScreenCommodities("free", commodities, (q: CommodityParams) => Returned(Polygon.MockCommodities)).status == 403
  {
  }
}
