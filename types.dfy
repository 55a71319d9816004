/** The records of types/stock.ts and the Notification record of
    lib/stores/useStockStore.ts. Numbers are `real` (prices, volumes) or
    `int` (millisecond timestamps). */
module Types {
  import opened Wrappers

  /** A number that may be infinite: `Math.max()` of no values is
      -Infinity and `Math.min()` of none is +Infinity. */
  datatype Extended = Finite(value: real) | PlusInfinity | MinusInfinity

  datatype StockQuote = StockQuote(
    symbol: string, name: string,
    price: real, change: real, changePercent: real,
    volume: real, marketCap: real, peRatio: real, eps: real,
    high52Week: real, low52Week: real, avgVolume: real,
    open: real, previousClose: real, dayHigh: Extended, dayLow: Extended,
    timestamp: int)

  /** One historical bar (StockHistoricalData without its derived `date` string). */
  datatype Bar = Bar(timestamp: int, open: real, high: real, low: real, close: real, volume: real)

  datatype Sentiment = Positive | Negative | Neutral

  datatype StockNews = StockNews(
    id: string, headline: string, summary: string, source: string, url: string,
    datetime: int, image: Option<string>, sentiment: Option<Sentiment>)

  datatype WatchlistItem = WatchlistItem(symbol: string, name: string, addedAt: int)

  datatype PortfolioHolding = PortfolioHolding(
    symbol: string, name: string, shares: real, averagePrice: real, currentPrice: real,
    totalValue: real, gainLoss: real, gainLossPercent: real)

  datatype AlertType = Price | Percent | Volume

  datatype AlertCondition = Above | Below

  datatype Alert = Alert(
    id: string, symbol: string, kind: AlertType, condition: AlertCondition,
    value: real, triggered: bool, createdAt: int)

  datatype TimeFrame = OneDay | FiveDays | OneMonth | ThreeMonths | SixMonths | OneYear | FiveYears | Max

  datatype ChartType = Line | Candlestick | Area

  datatype IndicatorFlags = IndicatorFlags(rsi: bool, macd: bool, bollingerBands: bool, ema: bool, sma: bool)

  datatype ChartColors = ChartColors(upColor: string, downColor: string, backgroundColor: string)

  datatype ChartSettings = ChartSettings(
    chartType: ChartType, showVolume: bool, showGrid: bool,
    indicators: IndicatorFlags, colors: ChartColors)

  /** The `{ symbol, name }` pairs of search results and of the watchlist
      handed to the notification service. */
  datatype SymbolName = SymbolName(symbol: string, name: string)

  datatype NotificationKind = PriceAlert | News | System | Watchlist

  /** A notification without its id (`Omit<Notification, 'id'>`). */
  datatype NotificationData = NotificationData(
    kind: NotificationKind, title: string, message: string, timestamp: int, read: bool,
    symbol: Option<string>, url: Option<string>, source: Option<string>)

  datatype Notification = Notification(id: string, data: NotificationData)
}
