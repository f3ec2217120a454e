/** The term-to-symbol table the chart analysis scans, in the table's own order; where a
    term is listed twice the later entry wins, and every such pair agrees. */
module ChartSymbols {

  /** Lower-case user terms and the TradingView symbols they stand for. */
  const SymbolTable: seq<(string, string)> := [
    ("bitcoin", "BINANCE:BTCUSD"),
    ("btc", "BINANCE:BTCUSD"),
    ("btcusd", "BINANCE:BTCUSD"),
    ("btcusdt", "BINANCE:BTCUSDT"),
    ("ethereum", "BINANCE:ETHUSD"),
    ("eth", "BINANCE:ETHUSD"),
    ("ethusd", "BINANCE:ETHUSD"),
    ("ethusdt", "BINANCE:ETHUSDT"),
    ("ripple", "BINANCE:XRPUSD"),
    ("xrp", "BINANCE:XRPUSD"),
    ("xrpusd", "BINANCE:XRPUSD"),
    ("xrpusdt", "BINANCE:XRPUSDT"),
    ("dogecoin", "BINANCE:DOGEUSD"),
    ("doge", "BINANCE:DOGEUSD"),
    ("dogeusd", "BINANCE:DOGEUSD"),
    ("dogeusdt", "BINANCE:DOGEUSDT"),
    ("solana", "BINANCE:SOLUSD"),
    ("sol", "BINANCE:SOLUSD"),
    ("solusd", "BINANCE:SOLUSD"),
    ("solusdt", "BINANCE:SOLUSDT"),
    ("cardano", "BINANCE:ADAUSD"),
    ("ada", "BINANCE:ADAUSD"),
    ("adausd", "BINANCE:ADAUSD"),
    ("adausdt", "BINANCE:ADAUSDT"),
    ("polkadot", "BINANCE:DOTUSD"),
    ("dot", "BINANCE:DOTUSD"),
    ("dotusd", "BINANCE:DOTUSD"),
    ("dotusdt", "BINANCE:DOTUSDT"),
    ("chainlink", "BINANCE:LINKUSD"),
    ("link", "BINANCE:LINKUSD"),
    ("linkusd", "BINANCE:LINKUSD"),
    ("linkusdt", "BINANCE:LINKUSDT"),
    ("uniswap", "BINANCE:UNIUSD"),
    ("uni", "BINANCE:UNIUSD"),
    ("uniusd", "BINANCE:UNIUSD"),
    ("uniusdt", "BINANCE:UNIUSDT"),
    ("litecoin", "BINANCE:LTCUSD"),
    ("ltc", "BINANCE:LTCUSD"),
    ("ltcusd", "BINANCE:LTCUSD"),
    ("ltcusdt", "BINANCE:LTCUSDT"),
    ("bitcoin cash", "BINANCE:BCHUSD"),
    ("bch", "BINANCE:BCHUSD"),
    ("bchusd", "BINANCE:BCHUSD"),
    ("bchusdt", "BINANCE:BCHUSDT"),
    ("ethereum classic", "BINANCE:ETCUSD"),
    ("etc", "BINANCE:ETCUSD"),
    ("etcusd", "BINANCE:ETCUSD"),
    ("etcusdt", "BINANCE:ETCUSDT"),
    ("tether", "BINANCE:USDTUSD"),
    ("usdt", "BINANCE:USDTUSD"),
    ("usdc", "BINANCE:USDCUSD"),
    ("usd coin", "BINANCE:USDCUSD"),
    ("binance coin", "BINANCE:BNBUSD"),
    ("bnb", "BINANCE:BNBUSD"),
    ("bnbusd", "BINANCE:BNBUSD"),
    ("bnbusdt", "BINANCE:BNBUSDT"),
    ("avalanche", "BINANCE:AVAXUSD"),
    ("avax", "BINANCE:AVAXUSD"),
    ("avaxusd", "BINANCE:AVAXUSD"),
    ("avaxusdt", "BINANCE:AVAXUSDT"),
    ("polygon", "BINANCE:MATICUSD"),
    ("matic", "BINANCE:MATICUSD"),
    ("maticusd", "BINANCE:MATICUSD"),
    ("maticusdt", "BINANCE:MATICUSDT"),
    ("shiba inu", "BINANCE:SHIBUSD"),
    ("shib", "BINANCE:SHIBUSD"),
    ("shibusd", "BINANCE:SHIBUSD"),
    ("shibusdt", "BINANCE:SHIBUSDT"),
    ("apple", "NASDAQ:AAPL"),
    ("aapl", "NASDAQ:AAPL"),
    ("microsoft", "NASDAQ:MSFT"),
    ("msft", "NASDAQ:MSFT"),
    ("google", "NASDAQ:GOOGL"),
    ("googl", "NASDAQ:GOOGL"),
    ("alphabet", "NASDAQ:GOOGL"),
    ("amazon", "NASDAQ:AMZN"),
    ("amzn", "NASDAQ:AMZN"),
    ("tesla", "NASDAQ:TSLA"),
    ("tsla", "NASDAQ:TSLA"),
    ("nvidia", "NASDAQ:NVDA"),
    ("nvda", "NASDAQ:NVDA"),
    ("meta", "NASDAQ:META"),
    ("facebook", "NASDAQ:META"),
    ("netflix", "NASDAQ:NFLX"),
    ("nflx", "NASDAQ:NFLX"),
    ("berkshire hathaway", "NYSE:BRK.A"),
    ("brk.a", "NYSE:BRK.A"),
    ("brk.b", "NYSE:BRK.B"),
    ("johnson & johnson", "NYSE:JNJ"),
    ("jnj", "NYSE:JNJ"),
    ("procter & gamble", "NYSE:PG"),
    ("pg", "NYSE:PG"),
    ("jpmorgan", "NYSE:JPM"),
    ("jpm", "NYSE:JPM"),
    ("visa", "NYSE:V"),
    ("v", "NYSE:V"),
    ("mastercard", "NYSE:MA"),
    ("ma", "NYSE:MA"),
    ("home depot", "NYSE:HD"),
    ("hd", "NYSE:HD"),
    ("walmart", "NYSE:WMT"),
    ("wmt", "NYSE:WMT"),
    ("coca cola", "NYSE:KO"),
    ("ko", "NYSE:KO"),
    ("pepsi", "NASDAQ:PEP"),
    ("pep", "NASDAQ:PEP"),
    ("disney", "NYSE:DIS"),
    ("dis", "NYSE:DIS"),
    ("adobe", "NASDAQ:ADBE"),
    ("adbe", "NASDAQ:ADBE"),
    ("salesforce", "NYSE:CRM"),
    ("crm", "NYSE:CRM"),
    ("oracle", "NYSE:ORCL"),
    ("orcl", "NYSE:ORCL"),
    ("intel", "NASDAQ:INTC"),
    ("intc", "NASDAQ:INTC"),
    ("amd", "NASDAQ:AMD"),
    ("advanced micro devices", "NASDAQ:AMD"),
    ("cisco", "NASDAQ:CSCO"),
    ("csco", "NASDAQ:CSCO"),
    ("ibm", "NYSE:IBM"),
    ("international business machines", "NYSE:IBM"),
    ("paypal", "NASDAQ:PYPL"),
    ("pypl", "NASDAQ:PYPL"),
    ("uber", "NYSE:UBER"),
    ("airbnb", "NASDAQ:ABNB"),
    ("abnb", "NASDAQ:ABNB"),
    ("zoom", "NASDAQ:ZM"),
    ("zm", "NASDAQ:ZM"),
    ("palantir", "NYSE:PLTR"),
    ("pltr", "NYSE:PLTR"),
    ("roku", "NASDAQ:ROKU"),
    ("spotify", "NYSE:SPOT"),
    ("spot", "NYSE:SPOT"),
    ("twitter", "NYSE:TWTR"),
    ("twtr", "NYSE:TWTR"),
    ("snapchat", "NYSE:SNAP"),
    ("snap", "NYSE:SNAP"),
    ("pinterest", "NYSE:PINS"),
    ("pins", "NYSE:PINS"),
    ("square", "NYSE:SQ"),
    ("sq", "NYSE:SQ"),
    ("shopify", "NYSE:SHOP"),
    ("shop", "NYSE:SHOP"),
    ("spy", "AMEX:SPY"),
    ("sp500", "AMEX:SPY"),
    ("s&p500", "AMEX:SPY"),
    ("s&p 500", "AMEX:SPY"),
    ("qqq", "NASDAQ:QQQ"),
    ("nasdaq", "NASDAQ:QQQ"),
    ("nasdaq100", "NASDAQ:QQQ"),
    ("nasdaq 100", "NASDAQ:QQQ"),
    ("dow", "NYSE:DJI"),
    ("dow jones", "NYSE:DJI"),
    ("djia", "NYSE:DJI"),
    ("russell 2000", "AMEX:IWM"),
    ("russell", "AMEX:IWM"),
    ("iwm", "AMEX:IWM"),
    ("vix", "CBOE:VIX"),
    ("volatility", "CBOE:VIX"),
    ("dax", "GERMANY:DAX"),
    ("germany", "GERMANY:DAX"),
    ("ftse", "UK:FTSE"),
    ("ftse100", "UK:FTSE"),
    ("london", "UK:FTSE"),
    ("cac40", "FRANCE:CAC40"),
    ("france", "FRANCE:CAC40"),
    ("nikkei", "JAPAN:NIKKEI"),
    ("nikkei225", "JAPAN:NIKKEI"),
    ("japan", "JAPAN:NIKKEI"),
    ("hang seng", "HONGKONG:HSI"),
    ("hsi", "HONGKONG:HSI"),
    ("hong kong", "HONGKONG:HSI"),
    ("shanghai", "SHANGHAI:SHANGHAI"),
    ("china", "SHANGHAI:SHANGHAI"),
    ("asx", "AUSTRALIA:ASX"),
    ("australia", "AUSTRALIA:ASX"),
    ("bovespa", "BRAZIL:BVSP"),
    ("brazil", "BRAZIL:BVSP"),
    ("ibovespa", "BRAZIL:BVSP"),
    ("gold", "OANDA:XAUUSD"),
    ("xauusd", "OANDA:XAUUSD"),
    ("silver", "OANDA:XAGUSD"),
    ("xagusd", "OANDA:XAGUSD"),
    ("crude oil", "NYMEX:CL1!"),
    ("wti", "NYMEX:CL1!"),
    ("oil", "NYMEX:CL1!"),
    ("brent", "OANDA:XBRUSD"),
    ("brent oil", "OANDA:XBRUSD"),
    ("natural gas", "NYMEX:NG1!"),
    ("gas", "NYMEX:NG1!"),
    ("copper", "OANDA:XCUUSD"),
    ("copper futures", "COMEX:HG1!"),
    ("platinum", "OANDA:XPTUSD"),
    ("palladium", "OANDA:XPDUSD"),
    ("corn", "CBOT:ZC1!"),
    ("wheat", "CBOT:ZW1!"),
    ("soybeans", "CBOT:ZS1!"),
    ("eurusd", "FX:EURUSD"),
    ("euro usd", "FX:EURUSD"),
    ("euro", "FX:EURUSD"),
    ("gbpusd", "FX:GBPUSD"),
    ("pound usd", "FX:GBPUSD"),
    ("pound", "FX:GBPUSD"),
    ("usdjpy", "FX:USDJPY"),
    ("usd jpy", "FX:USDJPY"),
    ("yen", "FX:USDJPY"),
    ("usdchf", "FX:USDCHF"),
    ("usd chf", "FX:USDCHF"),
    ("swiss franc", "FX:USDCHF"),
    ("audusd", "FX:AUDUSD"),
    ("aud usd", "FX:AUDUSD"),
    ("australian dollar", "FX:AUDUSD"),
    ("usdcad", "FX:USDCAD"),
    ("usd cad", "FX:USDCAD"),
    ("canadian dollar", "FX:USDCAD"),
    ("nzdusd", "FX:NZDUSD"),
    ("nzd usd", "FX:NZDUSD"),
    ("new zealand dollar", "FX:NZDUSD"),
    ("usdcnh", "FX:USDCNH"),
    ("usd renminbi", "FX:USDCNH"),
    ("renminbi", "FX:USDCNH"),
    ("usdzar", "FX:USDZAR"),
    ("usd south african rand", "FX:USDZAR"),
    ("south african rand", "FX:USDZAR"),
    ("usd yen", "FX:USDJPY"),
    ("usd canadian dollar", "FX:USDCAD"),
    ("usdtwd", "FX:USDTWD"),
    ("usd taiwan dollar", "FX:USDTWD"),
    ("taiwan dollar", "FX:USDTWD"),
    ("usdthb", "FX:USDTHB"),
    ("usd thai baht", "FX:USDTHB"),
    ("thai baht", "FX:USDTHB"),
    ("usdnok", "FX:USDNOK"),
    ("usd norwegian krone", "FX:USDNOK"),
    ("norwegian krone", "FX:USDNOK"),
    ("usdkrw", "FX:USDKRW"),
    ("usd korean won", "FX:USDKRW"),
    ("korean won", "FX:USDKRW"),
    ("usdsgd", "FX:USDSGD"),
    ("usd singapore dollar", "FX:USDSGD"),
    ("singapore dollar", "FX:USDSGD"),
    ("sp500 futures", "CME:ES1!"),
    ("es futures", "CME:ES1!"),
    ("nasdaq futures", "CME:NQ1!"),
    ("nq futures", "CME:NQ1!"),
    ("dow futures", "CME:YM1!"),
    ("ym futures", "CME:YM1!"),
    ("russell futures", "CME:RTY1!"),
    ("rty futures", "CME:RTY1!"),
    ("vix futures", "CBOE:VX1!"),
    ("vx futures", "CBOE:VX1!"),
    ("gold futures", "COMEX:GC1!"),
    ("gc futures", "COMEX:GC1!"),
    ("silver futures", "COMEX:SI1!"),
    ("si futures", "COMEX:SI1!"),
    ("crude oil futures", "NYMEX:CL1!"),
    ("cl futures", "NYMEX:CL1!"),
    ("natural gas futures", "NYMEX:NG1!"),
    ("ng futures", "NYMEX:NG1!"),
    ("10 year treasury", "CBOT:TY1!"),
    ("ty futures", "CBOT:TY1!"),
    ("30 year treasury", "CBOT:US1!"),
    ("us futures", "CBOT:US1!"),
    ("euro futures", "CME:6E1!"),
    ("6e futures", "CME:6E1!"),
    ("yen futures", "CME:6J1!"),
    ("6j futures", "CME:6J1!"),
    ("pound futures", "CME:6B1!"),
    ("6b futures", "CME:6B1!"),
    ("australian dollar futures", "CME:6A1!"),
    ("6a futures", "CME:6A1!"),
    ("new zealand dollar futures", "CME:6N1!"),
    ("6n futures", "CME:6N1!"),
    ("swiss franc futures", "CME:6F1!"),
    ("6f futures", "CME:6F1!"),
    ("japanese yen futures", "CME:6J1!"),
    ("indonesian rupiah futures", "CME:6I1!"),
    ("6i futures", "CME:6I1!"),
    ("indian rupee futures", "CME:6R1!"),
    ("6r futures", "CME:6R1!"),
    ("south african rand futures", "CME:6Z1!"),
    ("6z futures", "CME:6Z1!"),
    ("brazilian real futures", "CME:6B1!"),
    ("chinese yuan futures", "CME:6C1!"),
    ("6c futures", "CME:6C1!"),
    ("spy options", "AMEX:SPY"),
    ("qqq options", "NASDAQ:QQQ"),
    ("aapl options", "NASDAQ:AAPL"),
    ("tsla options", "NASDAQ:TSLA"),
    ("nvda options", "NASDAQ:NVDA"),
    ("msft options", "NASDAQ:MSFT"),
    ("amzn options", "NASDAQ:AMZN"),
    ("googl options", "NASDAQ:GOOGL"),
    ("meta options", "NASDAQ:META"),
    ("nflx options", "NASDAQ:NFLX"),
    ("brk.a options", "NYSE:BRK.A"),
    ("brk.b options", "NYSE:BRK.B"),
    ("jnj options", "NYSE:JNJ"),
    ("pg options", "NYSE:PG"),
    ("jpm options", "NYSE:JPM"),
    ("v options", "NYSE:V"),
    ("ma options", "NYSE:MA"),
    ("hd options", "NYSE:HD"),
    ("wmt options", "NYSE:WMT"),
    ("ko options", "NYSE:KO"),
    ("pep options", "NASDAQ:PEP"),
    ("dis options", "NYSE:DIS"),
    ("adbe options", "NASDAQ:ADBE"),
    ("crm options", "NYSE:CRM"),
    ("orcl options", "NYSE:ORCL"),
    ("intc options", "NASDAQ:INTC"),
    ("amd options", "NASDAQ:AMD"),
    ("csco options", "NASDAQ:CSCO"),
    ("ibm options", "NYSE:IBM"),
    ("pypl options", "NASDAQ:PYPL"),
    ("ubr options", "NYSE:UBER"),
    ("abnb options", "NASDAQ:ABNB"),
    ("zm options", "NASDAQ:ZM"),
    ("pltr options", "NYSE:PLTR"),
    ("roku options", "NASDAQ:ROKU"),
    ("spot options", "NYSE:SPOT"),
    ("twtr options", "NYSE:TWTR"),
    ("snap options", "NYSE:SNAP"),
    ("pins options", "NYSE:PINS"),
    ("sq options", "NYSE:SQ"),
    ("shop options", "NYSE:SHOP")
  ]
}
