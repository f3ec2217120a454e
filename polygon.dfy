/**
 * The market-data service (app/services/polygon_service.py): the score helpers, the
 * request helper that appends the API key and turns every failure into an error document,
 * and the stock screen, which fetches one snapshot, processes one page of it ticker by
 * ticker and falls back to sample rows when nothing survives.
 *
 * The HTTP exchange is a parameter `fetch`: the outcome the service would see for a URL.
 * Numbers are exact reals; the scores compare against halves and integers only.
 */
module Polygon {
  import opened Wrappers
  import opened Text
  import opened JsonValue
  import opened Sequences

  // ---- scores ----

  /** `min(max(score, 0), 10)` */
  function Clamp(x: real): real {
    if x < 0.0 then 0.0 else if x > 10.0 then 10.0 else x
  }

  /** The stock score before clamping: base 5, momentum +2 above 2% or +1 above 0%,
      volume +1.5 above ten million or +0.5 above five million, +1 for a market cap strictly
      between ten and a hundred billion. The price is not used. */
  function StockScoreSum(changePercent: real, volume: real, marketCap: real): real {
    5.0
    + (if changePercent > 2.0 then 2.0 else if changePercent > 0.0 then 1.0 else 0.0)
    + (if volume > 10000000.0 then 1.5 else if volume > 5000000.0 then 0.5 else 0.0)
    + (if 10000000000.0 < marketCap < 100000000000.0 then 1.0 else 0.0)
  }

  function StockScore(changePercent: real, volume: real, marketCap: real, price: real): (r: real)
    ensures 5.0 <= r <= 9.5
  {
    Clamp(StockScoreSum(changePercent, volume, marketCap))
  }

  /** The clamp never binds: the score is the bonus sum itself. */
  lemma StockClampInactive(changePercent: real, volume: real, marketCap: real, price: real)
    ensures StockScore(changePercent, volume, marketCap, price) == StockScoreSum(changePercent, volume, marketCap)
  {
  }

  /** A larger daily change never lowers the stock score. */
  lemma StockScoreMonotone(c1: real, c2: real, volume: real, marketCap: real, price: real)
    requires c1 <= c2
    ensures StockScore(c1, volume, marketCap, price) <= StockScore(c2, volume, marketCap, price)
  {
  }

  /** Base 5, +2.5 above 5% or +1.5 above 2%, +1.5 for a volume above one million. */
  function CryptoScore(changePercent: real, volume: real): (r: real)
    ensures 5.0 <= r <= 9.0
  {
    Clamp(5.0
      + (if changePercent > 5.0 then 2.5 else if changePercent > 2.0 then 1.5 else 0.0)
      + (if volume > 1000000.0 then 1.5 else 0.0))
  }

  /** Base 5, +2 for a volatility strictly between 0.5 and 2, +1.5 for a move above 0.5. */
  function ForexScore(volatility: real, absChange: real): (r: real)
    ensures 5.0 <= r <= 8.5
  {
    Clamp(5.0
      + (if 0.5 < volatility < 2.0 then 2.0 else 0.0)
      + (if absChange > 0.5 then 1.5 else 0.0))
  }

  /** Each score reaches its upper bound on some input. */
  lemma ScoreBoundsAreTight()
    ensures StockScore(3.0, 20000000.0, 50000000000.0, 100.0) == 9.5
    ensures CryptoScore(6.0, 2000000.0) == 9.0
    ensures ForexScore(1.0, 1.0) == 8.5
  {
  }

  // ---- requests ----

  /** What the HTTP exchange for one URL gives: a status and a decoded body, or a failure
      (connection error, timeout, a body that is not JSON). */
  datatype HttpOutcome = Response(status: int, body: Json) | Broken

  /** The query-string separator: `&` when the URL already has a query, else `?`. */
  function Separator(url: string): char {
    if '?' in url then '&' else '?'
  }

  function WithApiKey(url: string, key: string): (r: string)
    ensures IsPrefix(url, r)
    ensures '?' in r
  {
    var r := url + [Separator(url)] + "apiKey=" + key;
    assert r[|url|] == Separator(url);
    assert r[..|url|] == url;
    r
  }

  /** Appending the key never adds a second query mark: the URL ends up with exactly one
      when it had none, and keeps its own otherwise. */
  lemma WithApiKeyQueryMarks(url: string, key: string)
    requires '?' !in key
    ensures multiset(WithApiKey(url, key))['?'] == if '?' in url then multiset(url)['?'] else 1
  {
    var sep := Separator(url);
    assert WithApiKey(url, key) == url + [sep] + "apiKey=" + key;
    assert multiset("apiKey=")['?'] == 0 by {
      assert '?' !in "apiKey=";
    }
    assert multiset(key)['?'] == 0;
    assert '?' !in url ==> multiset(url)['?'] == 0;
  }

  /** `{"results": [], "status": "ERROR"}` */
  const ErrorDocument: Json := JObj(map["results" := JArr([]), "status" := JStr("ERROR")])

  /** The decoded body of a 200 response; every other outcome is the error document. */
  function MakeRequest(fetch: string -> HttpOutcome, url: string, key: string): (r: Json)
    ensures fetch(WithApiKey(url, key)) == Response(200, r) || r == ErrorDocument
    ensures fetch(WithApiKey(url, key)).Response? && fetch(WithApiKey(url, key)).status == 200
            ==> r == fetch(WithApiKey(url, key)).body
    ensures !(fetch(WithApiKey(url, key)).Response? && fetch(WithApiKey(url, key)).status == 200)
            ==> r == ErrorDocument
  {
    match fetch(WithApiKey(url, key))
    case Response(status, body) => if status == 200 then body else ErrorDocument
    case Broken => ErrorDocument
  }

  // ---- rows ----

  /** A screened row built from market data (the fields pass the documents' values
      through), or one of the sample rows; both carry the source's keys. */
  datatype StockRow =
    | Live(ticker: string, name: Json, price: Json, marketCap: Json, volume: Json,
           changePercent: Json, dividendYield: real, score: real)
    | Sample(ticker: string, name: Json, price: Json, change: real, changePercent: Json,
             volume: Json, marketCap: Json, sector: string, dividendYield: real, score: real)

  const MockStocks: seq<StockRow> := [
    Sample("AAPL", JStr("Apple Inc."), JFloat(185.42), 2.15, JFloat(1.17), JInt(45234567),
           JInt(2890000000000), "Technology", 2.52, 8.5),
    Sample("MSFT", JStr("Microsoft Corporation"), JFloat(378.85), 4.23, JFloat(1.13), JInt(23456789),
           JInt(2810000000000), "Technology", 2.78, 8.2)
  ]

  const SnapshotUrl := "https://api.polygon.io/v2/snapshot/locale/us/markets/stocks/tickers"

  function DetailsUrl(ticker: string): string {
    "https://api.polygon.io/v3/reference/tickers/" + ticker
  }

  function DividendsUrl(ticker: string): string {
    "https://api.polygon.io/v3/reference/dividends?ticker=" + ticker
  }

  /** `j.get(k, default)`: None when `j` is not an object (the AttributeError). */
  function Get(j: Json, k: string, default: Json): (r: Option<Json>)
    ensures r.Some? <==> j.JObj?
    ensures j.JObj? && k !in j.fields ==> r == Some(default)
  {
    if !j.JObj? then None else if k in j.fields then Some(j.fields[k]) else Some(default)
  }

  /** `value or 0` */
  function OrZero(j: Json): (r: Json)
    ensures Truthy(j) ==> r == j
    ensures !Truthy(j) ==> r == JInt(0)
  {
    if Truthy(j) then j else JInt(0)
  }

  /** The value Python's arithmetic and comparisons see; None for values that raise. */
  function Num(j: Json): Option<real> {
    match j
    case JInt(i) => Some(i as real)
    case JFloat(x) => Some(x)
    case JBool(b) => Some(if b then 1.0 else 0.0)
    case _ => None
  }

  /** `snapshot.get("tickers", [])` sliced: the entries, or None where the slice raises. */
  function TickersOf(snapshot: Json): Option<seq<Json>> {
    match Get(snapshot, "tickers", JArr([]))
    case Some(JArr(items)) => Some(items)
    case _ => None
  }

  /** An entry whose `snapshot['ticker']` the page loop can read. */
  predicate WellFormedEntry(entry: Json) {
    entry.JObj? && "ticker" in entry.fields && entry.fields["ticker"].JStr?
  }

  function TickerOf(entry: Json): string
    requires WellFormedEntry(entry)
  {
    entry.fields["ticker"].s
  }

  /** The dividend yield of the ticker in percent: 0 unless the dividends document has a
      non-empty `results` list, else the first dividend's cash amount (default 0) times its
      frequency (default 4) over the day's close (default 1). None where Python raises. */
  function DividendYield(entry: Json, dividends: Json): (r: Option<real>)
    requires entry.JObj?
    ensures !dividends.JObj? ==> r.None?
    ensures dividends.JObj? && ("results" !in dividends.fields || !Truthy(dividends.fields["results"])) ==> r == Some(0.0)
    ensures r.Some? && r.value != 0.0 ==>
      dividends.JObj? && "results" in dividends.fields && dividends.fields["results"].JArr? &&
      |dividends.fields["results"].items| > 0
  {
    match Get(dividends, "results", JNull)
    case None => None
    case Some(results) =>
      if !Truthy(results) then Some(0.0)
      else if !results.JArr? then None
      else
        var latest := results.items[0];
        var cash := Get(latest, "cash_amount", JInt(0));
        var frequency := Get(latest, "frequency", JInt(4));
        var close := Get(Get(entry, "day", JObj(map[])).value, "c", JInt(1));
        if cash.None? || frequency.None? || close.None? then None
        else if Num(cash.value).None? || Num(frequency.value).None? || Num(close.value).None? then None
        else if Num(close.value).value == 0.0 then None
        else Some(Num(cash.value).value * Num(frequency.value).value / Num(close.value).value * 100.0)
  }

  /** The body of the per-ticker `try`: the row, or None when it raises (the ticker is skipped). */
  function ProcessTicker(entry: Json, details: Json, dividends: Json): (r: Option<StockRow>)
    requires WellFormedEntry(entry)
    ensures r.Some? ==> r.value.Live? && r.value.ticker == TickerOf(entry)
    ensures r.Some? ==> 5.0 <= r.value.score <= 9.5
  {
    match DividendYield(entry, dividends)
    case None => None
    case Some(dividendYield) =>
      match Get(details, "results", JNull)
      case None => None
      case Some(results) =>
        match Get(results, "market_cap", JNull)
        case None => None
        case Some(cap) =>
          var marketCap := OrZero(cap);
          var day := Get(entry, "day", JObj(map[])).value;
          var volume := Get(day, "v", JNull);
          var close := Get(day, "c", JNull);
          var change := Get(entry, "todaysChangePerc", JNull).value;
          if volume.None? || close.None? then None
          else if Num(OrZero(change)).None? || Num(OrZero(volume.value)).None? || Num(marketCap).None? then None
          else
            var score := StockScore(Num(OrZero(change)).value, Num(OrZero(volume.value)).value, Num(marketCap).value, 0.0);
            Some(Live(TickerOf(entry), Get(results, "name", JNull).value, close.value, marketCap, volume.value,
                      change, dividendYield, score))
  }

  /** One ticker of the page, with its two requests. */
  function RowOf(fetch: string -> HttpOutcome, key: string, entry: Json): Option<StockRow>
    requires WellFormedEntry(entry)
  {
    var t := TickerOf(entry);
    ProcessTicker(entry, MakeRequest(fetch, DetailsUrl(t), key), MakeRequest(fetch, DividendsUrl(t), key))
  }

  /** The tickers named by the well-formed entries of a page. */
  function Tickers(page: seq<Json>): set<string> {
    set e | e in page && WellFormedEntry(e) :: TickerOf(e)
  }

  /** The page loop's `current_page_results`; None when an entry is malformed, since reading
      its ticker raises outside the per-ticker `try`. */
  function PageRows(fetch: string -> HttpOutcome, key: string, page: seq<Json>): (r: Option<seq<StockRow>>)
    ensures r.Some? ==> |r.value| <= |page|
    ensures r.Some? ==> forall row | row in r.value :: row.Live? && 5.0 <= row.score <= 9.5
  {
    if |page| == 0 then Some([])
    else
      var n := |page| - 1;
      match PageRows(fetch, key, page[..n])
      case None => None
      case Some(rows) =>
        if !WellFormedEntry(page[n]) then None
        else
          match RowOf(fetch, key, page[n])
          case None => Some(rows)
          case Some(row) => Some(rows + [row])
  }

  /** The page loop completes exactly when every entry has a readable ticker. */
  lemma {:induction false} PageRowsCompletes(fetch: string -> HttpOutcome, key: string, page: seq<Json>)
    ensures PageRows(fetch, key, page).Some? <==> forall e | e in page :: WellFormedEntry(e)
    decreases |page|
  {
    if |page| > 0 {
      var n := |page| - 1;
      assert page == page[..n] + [page[n]];
      PageRowsCompletes(fetch, key, page[..n]);
    }
  }

  /** Every row of the page loop names a ticker of the page. */
  lemma {:induction false} PageRowsTickers(fetch: string -> HttpOutcome, key: string, page: seq<Json>)
    ensures PageRows(fetch, key, page).Some? ==>
      forall row | row in PageRows(fetch, key, page).value :: row.ticker in Tickers(page)
    decreases |page|
  {
    if |page| > 0 && PageRows(fetch, key, page).Some? {
      var n := |page| - 1;
      PageRowsTickers(fetch, key, page[..n]);
      TickersGrow(page);
      var rows := PageRows(fetch, key, page[..n]).value;
      forall row | row in PageRows(fetch, key, page).value
        ensures row.ticker in Tickers(page)
      {
        if row !in rows {
          assert RowOf(fetch, key, page[n]) == Some(row);
        }
      }
    }
  }

  /** The tickers of a page include those of its prefix and that of its last entry. */
  lemma TickersGrow(page: seq<Json>)
    requires |page| > 0
    ensures Tickers(page[..|page| - 1]) <= Tickers(page)
    ensures WellFormedEntry(page[|page| - 1]) ==> TickerOf(page[|page| - 1]) in Tickers(page)
  {
    var n := |page| - 1;
    assert forall e | e in page[..n] :: e in page;
    assert page[n] in page;
  }

  /** `start_index = (page - 1) * items_per_page` */
  function PageStart(page: int, limit: int): nat
    requires page >= 1 && limit >= 0
  {
    (page - 1) * limit
  }

  /** `screen_stocks`: the page `[(page - 1) * limit, page * limit)` of the snapshot, the
      sample rows when the snapshot cannot be sliced, an entry is malformed or no row
      survives. The filter arguments do not occur: the source's filter is commented out. */
  function ScreenStocksSpec(fetch: string -> HttpOutcome, key: string, page: int, limit: int): (r: seq<StockRow>)
    requires page >= 1 && limit >= 0
    ensures TickersOf(MakeRequest(fetch, SnapshotUrl, key)).None? ==> r == MockStocks
    ensures r != MockStocks ==>
      TickersOf(MakeRequest(fetch, SnapshotUrl, key)).Some? &&
      PageRows(fetch, key, Window(TickersOf(MakeRequest(fetch, SnapshotUrl, key)).value, PageStart(page, limit), limit)) == Some(r) &&
      r != []
    ensures var tickers := TickersOf(MakeRequest(fetch, SnapshotUrl, key));
      tickers.Some? && PageRows(fetch, key, Window(tickers.value, PageStart(page, limit), limit)).Some? &&
      PageRows(fetch, key, Window(tickers.value, PageStart(page, limit), limit)).value != [] ==>
        r == PageRows(fetch, key, Window(tickers.value, PageStart(page, limit), limit)).value
  {
    match TickersOf(MakeRequest(fetch, SnapshotUrl, key))
    case None => MockStocks
    case Some(all) =>
      match PageRows(fetch, key, Window(all, PageStart(page, limit), limit))
      case None => MockStocks
      case Some(rows) => if rows == [] then MockStocks else rows
  }

  /** A stock screen answers the sample rows or at most `limit` rows of the requested page,
      each scored in [5, 9.5]. */
  lemma ScreenStocksBounded(fetch: string -> HttpOutcome, key: string, page: int, limit: int)
    requires page >= 1 && limit >= 0
    ensures var r := ScreenStocksSpec(fetch, key, page, limit);
      r == MockStocks || (0 < |r| <= limit && forall row | row in r :: row.Live?)
    ensures forall row | row in ScreenStocksSpec(fetch, key, page, limit) :: 5.0 <= row.score <= 9.5
  {
    var r := ScreenStocksSpec(fetch, key, page, limit);
    assert forall row | row in MockStocks :: 5.0 <= row.score <= 9.5;
  }

  /** Live rows come from the requested page only: two pages of one snapshot share no
      entry positions, so their live rows name tickers of disjoint slices. */
  lemma LiveRowsFromPage(fetch: string -> HttpOutcome, key: string, page: int, limit: int, all: seq<Json>)
    requires page >= 1 && limit >= 0
    requires TickersOf(MakeRequest(fetch, SnapshotUrl, key)) == Some(all)
    ensures forall row | row in ScreenStocksSpec(fetch, key, page, limit) && row.Live? ::
      row.ticker in Tickers(Window(all, PageStart(page, limit), limit))
  {
    PageRowsTickers(fetch, key, Window(all, PageStart(page, limit), limit));
  }

  /** `screen_stocks`. */
  method ScreenStocks(fetch: string -> HttpOutcome, key: string, page: int, limit: int) returns (rows: seq<StockRow>)
    requires page >= 1 && limit >= 0
    ensures rows == ScreenStocksSpec(fetch, key, page, limit)
  {
    var snapshot := MakeRequest(fetch, SnapshotUrl, key);
    var tickers := TickersOf(snapshot);
    if tickers.None? {
      return MockStocks;
    }
    var current := ProcessPage(fetch, key, Window(tickers.value, PageStart(page, limit), limit));
    if current.None? || current.value == [] {
      return MockStocks;
    }
    return current.value;
  }

  /** The page loop: one row per ticker whose processing succeeds; None as soon as an entry
      is malformed. */
  method ProcessPage(fetch: string -> HttpOutcome, key: string, window: seq<Json>) returns (result: Option<seq<StockRow>>)
    ensures result == PageRows(fetch, key, window)
  {
    var current: seq<StockRow> := [];
    var i := 0;
    while i < |window|
      invariant 0 <= i <= |window|
      invariant PageRows(fetch, key, window[..i]) == Some(current)
    {
      var entry := window[i];
      PageRowsStep(fetch, key, window, i);
      if !WellFormedEntry(entry) {
        PageRowsNoneExtends(fetch, key, window, i + 1);
        return None;
      }
      var t := TickerOf(entry);
      var details := MakeRequest(fetch, DetailsUrl(t), key);
      var dividends := MakeRequest(fetch, DividendsUrl(t), key);
      var row := ProcessTicker(entry, details, dividends);
      if row.Some? {
        current := current + [row.value];
      }
      i := i + 1;
    }
    assert window[..i] == window;
    return Some(current);
  }

  /** The loop's step: one more entry of the page, processed as the loop body does. */
  lemma PageRowsStep(fetch: string -> HttpOutcome, key: string, page: seq<Json>, i: nat)
    requires i < |page|
    ensures PageRows(fetch, key, page[..i + 1]) ==
      if PageRows(fetch, key, page[..i]).None? || !WellFormedEntry(page[i]) then None
      else match RowOf(fetch, key, page[i])
        case None => PageRows(fetch, key, page[..i])
        case Some(row) => Some(PageRows(fetch, key, page[..i]).value + [row])
  {
    assert page[..i + 1][..i] == page[..i];
  }

  /** Once a prefix of the page holds a malformed entry, so does the page. */
  lemma PageRowsNoneExtends(fetch: string -> HttpOutcome, key: string, page: seq<Json>, j: nat)
    requires j <= |page| && PageRows(fetch, key, page[..j]) == None
    ensures PageRows(fetch, key, page) == None
  {
    PageRowsCompletes(fetch, key, page[..j]);
    PageRowsCompletes(fetch, key, page);
    var e :| e in page[..j] && !WellFormedEntry(e);
    assert e in page;
  }

  // ---- the other screens ----

  datatype CryptoRow = CryptoRow(ticker: string, name: string, price: real, change: real, changePercent: real,
                                 marketCap: int, volume24h: int, whaleFlow: string, exchangeFlow: string, score: real)
  datatype ForexRow = ForexRow(pair: string, kind: string, price: real, change: real, changePercent: real,
                               volatility: real, trend: string, activeSession: string, newsImpact: string, score: real)
  datatype OptionRow = OptionRow(underlying: string, strategy: string, strike: int, dte: int, premium: real,
                                 yieldPercent: real, ivRank: int, liquidity: int, riskScore: real)
  datatype CommodityRow = CommodityRow(ticker: string, category: string, price: real, change: real, changePercent: real,
                                       momentum: string, seasonal: string, inventory: string, newsEvents: int, score: real)

  const MockCrypto: seq<CryptoRow> := [
    CryptoRow("BTC", "Bitcoin", 67420.5, 2140.25, 3.28, 1320000000000, 28500000000, "accumulation", "outflow", 9.1)
  ]

  const MockForex: seq<ForexRow> := [
    ForexRow("EUR/USD", "major", 1.0842, -0.0021, -0.19, 0.65, "sideways", "London", "low", 7.3)
  ]

  const MockCommodities: seq<CommodityRow> := [
    CommodityRow("GC", "metals", 2045.50, 12.30, 0.60, "strong", "favorable", "normal", 2, 7.8)
  ]

  /** `screen_crypto`: its request call passes two arguments to the one-argument helper, which
      raises before any I/O; the handler catches it and answers the sample rows. */
  function ScreenCrypto(fetch: string -> HttpOutcome, key: string, sortBy: string, minMarketCap: real,
                        maxMarketCap: real, minVolume24h: real, whaleActivity: string, exchangeFlow: string): (r: seq<CryptoRow>)
    ensures r == MockCrypto
  {
    MockCrypto
  }

  /** `screen_forex`: the same two-argument request call, so always the sample rows. */
  function ScreenForex(fetch: string -> HttpOutcome, key: string, sortBy: string, pairType: string,
                       minVolatility: real, maxVolatility: real, trend: string): (r: seq<ForexRow>)
    ensures r == MockForex
  {
    MockForex
  }

  /** The crypto and forex screens answer the same rows whatever the market data and the
      filters. */
  lemma CryptoAndForexIgnoreMarket(f1: string -> HttpOutcome, f2: string -> HttpOutcome, key: string,
                                   s1: string, s2: string, a1: real, a2: real, b1: real, b2: real)
    ensures ScreenCrypto(f1, key, s1, a1, b1, a1, s1, s1) == ScreenCrypto(f2, key, s2, a2, b2, b2, s2, s2)
    ensures ScreenForex(f1, key, s1, s1, a1, b1, s1) == ScreenForex(f2, key, s2, s2, a2, b2, s2)
  {
  }

  /** `screen_options`: one sample row carrying the requested strategy upper-cased. */
  function ScreenOptions(strategy: string, minYield: real, maxYield: real, minDte: int, maxDte: int,
                         minIvRank: real, maxIvRank: real): (r: seq<OptionRow>)
    ensures |r| == 1 && r[0].strategy == Upper(strategy)
  {
    [OptionRow("AAPL", Upper(strategy), 180, 45, 2.50, 12.5, 45, 850, 3.5)]
  }

  /** `screen_commodities`: the sample rows, whatever the category. */
  function ScreenCommodities(sortBy: string, category: string, seasonalPattern: string): (r: seq<CommodityRow>)
    ensures r == MockCommodities
  {
    MockCommodities
  }
}
