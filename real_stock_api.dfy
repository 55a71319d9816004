/** The live data service of lib/services/realStockApi.ts with its network
    calls taken out: the decoded JSON bodies of the quote, history and news
    routes are inputs, and what is modelled is how the service validates
    and reshapes them, together with its keyword sentiment classifier and
    its lookup tables. `Date.now()` is the parameter `now`. */
module RealStockApi {
  import opened Wrappers
  import opened Types
  import opened Seqs
  import opened Text
  import opened Companies
  import StockApi

  /** A JSON number field: None when the field is absent, null or not a
      number. */
  type Num = Option<real>

  /** A number is truthy in JavaScript when it is present and not 0. */
  predicate TruthyNum(n: Num)
  {
    n.Some? && n.value != 0.0
  }

  /** A whole-number field is truthy when it is present and not 0. */
  predicate TruthyInt(n: Option<int>)
  {
    n.Some? && n.value != 0
  }

  /** `a || fallback` for a number field. */
  function NumOr(a: Num, fallback: real): (r: real)
    ensures TruthyNum(a) ==> r == a.value
    ensures !TruthyNum(a) ==> r == fallback
  {
    if TruthyNum(a) then a.value else fallback
  }

  /** `xs[i]`, undefined past the end. */
  function NumAt(xs: seq<Num>, i: int): Num
  {
    if 0 <= i < |xs| then xs[i] else None
  }

  // ---------------------------------------------------------------------
  // Sentiment

  const PositiveWords: seq<string> := ["beat", "surge", "growth", "profit", "gain", "upgrade", "high", "strong", "success", "record"]

  const NegativeWords: seq<string> := ["fall", "drop", "loss", "decline", "cut", "downgrade", "low", "weak", "miss", "concern"]

  /** How many of the keywords occur in the text; each keyword counts once. */
  function KeywordCount(words: seq<string>, text: string): (n: nat)
    ensures n <= |words|
  {
    |Filter(words, w => Contains(text, w))|
  }

  /** `analyzeSentiment`: positive when more positive than negative keywords
      occur in the lower-cased text, negative for the reverse, neutral on a tie. */
  function AnalyzeSentiment(text: string): Sentiment
  {
    var positive := KeywordCount(PositiveWords, ToLower(text));
    var negative := KeywordCount(NegativeWords, ToLower(text));
    if positive > negative then Positive
    else if negative > positive then Negative
    else Neutral
  }

  /** The classification compares two counts of at most ten keywords each. */
  lemma AnalyzeSentimentClasses(text: string)
    ensures var positive := KeywordCount(PositiveWords, ToLower(text));
      var negative := KeywordCount(NegativeWords, ToLower(text));
      && positive <= 10 && negative <= 10
      && (AnalyzeSentiment(text) == Positive <==> positive > negative)
      && (AnalyzeSentiment(text) == Negative <==> negative > positive)
      && (AnalyzeSentiment(text) == Neutral <==> positive == negative)
  {
  }

  /** The case of the text does not matter. */
  lemma AnalyzeSentimentIgnoresCase(text: string)
    ensures AnalyzeSentiment(ToUpper(text)) == AnalyzeSentiment(text)
  {
    ToLowerOfUpper(text);
  }

  /** Text that contains no keyword at all is neutral. */
  lemma NoKeywordsNeutral(text: string)
    requires forall i :: 0 <= i < |PositiveWords| ==> !Contains(ToLower(text), PositiveWords[i])
    requires forall i :: 0 <= i < |NegativeWords| ==> !Contains(ToLower(text), NegativeWords[i])
    ensures AnalyzeSentiment(text) == Neutral
  {
    FilterNone(PositiveWords, w => Contains(ToLower(text), w));
    FilterNone(NegativeWords, w => Contains(ToLower(text), w));
  }

  // ---------------------------------------------------------------------
  // Time frames and names

  /** `getYahooRange`. */
  function GetYahooRange(timeFrame: TimeFrame): string
  {
    match timeFrame
    case OneDay => "1d"
    case FiveDays => "5d"
    case OneMonth => "1mo"
    case ThreeMonths => "3mo"
    case SixMonths => "6mo"
    case OneYear => "1y"
    case FiveYears => "5y"
    case Max => "max"
  }

  /** Every time frame asks for a different range. */
  lemma YahooRangeInjective(a: TimeFrame, b: TimeFrame)
    requires GetYahooRange(a) == GetYahooRange(b)
    ensures a == b
  {
  }

  /** `getYahooInterval`. */
  function GetYahooInterval(timeFrame: TimeFrame): string
  {
    match timeFrame
    case OneDay => "5m"
    case FiveDays => "15m"
    case OneMonth => "1d"
    case ThreeMonths => "1d"
    case SixMonths => "1d"
    case OneYear => "1d"
    case FiveYears => "1wk"
    case Max => "1mo"
  }

  /** Intraday bars exactly for the frames of at most five days, daily bars
      for one month up to one year, and coarser bars beyond. */
  lemma YahooIntervalClasses(timeFrame: TimeFrame)
    ensures GetYahooInterval(timeFrame) in {"5m", "15m"} <==> StockApi.GetTimeFrameDays(timeFrame) <= 5
    ensures GetYahooInterval(timeFrame) == "1d" <==> 30 <= StockApi.GetTimeFrameDays(timeFrame) <= 365
    ensures GetYahooInterval(timeFrame) in {"1wk", "1mo"} <==> StockApi.GetTimeFrameDays(timeFrame) > 365
  {
  }

  /** `getCompanyName`: the table name of the upper-cased symbol, else the
      upper-cased symbol itself. */
  function GetCompanyName(symbol: string): (r: string)
    ensures LookupName(ToUpper(symbol)).Some? ==> r == LookupName(ToUpper(symbol)).value
    ensures LookupName(ToUpper(symbol)).None? ==> r == ToUpper(symbol)
  {
    match LookupName(ToUpper(symbol))
    case Some(name) => name
    case None => ToUpper(symbol)
  }

  /** The lookup ignores case, and on a listed ticker the live service and
      the demo service give the same name. */
  lemma GetCompanyNameProperties(symbol: string)
    ensures GetCompanyName(ToLower(symbol)) == GetCompanyName(symbol)
    ensures LookupName(ToUpper(symbol)).Some? ==> GetCompanyName(symbol) == StockApi.GetCompanyName(symbol)
    ensures LookupName(ToUpper(symbol)).None? ==> StockApi.GetCompanyName(symbol) == GetCompanyName(symbol) + " Company"
  {
    assert ToUpper(ToLower(symbol)) == ToUpper(symbol);
  }

  // ---------------------------------------------------------------------
  // News

  /** One item of the news route's body; `datetime` is Finnhub's whole
      Unix seconds. */
  datatype FinnhubItem = FinnhubItem(
    id: Option<int>, headline: string, summary: Option<string>, source: Option<string>,
    url: Option<string>, datetime: Option<int>, image: Option<string>)

  /** The `${n}` rendering of a whole number. */
  function IntToString(n: int): (r: string)
  {
    if n >= 0 then NatToString(n) else "-" + NatToString(-n)
  }

  /** The id of a formatted item: the item's id, else its position, then
      the time of the call. */
  function NewsId(id: Option<int>, index: nat, now: nat): string
  {
    "news-" + IntToString(if id.Some? && id.value != 0 then id.value else index) + "-" + NatToString(now)
  }

  function FormatItem(item: FinnhubItem, index: nat, now: nat): (n: StockNews)
  {
    StockNews(
      NewsId(item.id, index, now),
      item.headline,
      StringOr(item.summary, item.headline),
      StringOr(item.source, "Financial News"),
      StringOr(item.url, "#"),
      if TruthyInt(item.datetime) then item.datetime.value * 1000 else now - index * 3600000,
      item.image,
      Some(AnalyzeSentiment(item.headline + " " + StringOr(item.summary, ""))))
  }

  /** `formatFinnhubNews`: the first eight items, reshaped. */
  function FormatFinnhubNews(items: seq<FinnhubItem>, now: nat): (news: seq<StockNews>)
    ensures |news| == if |items| < 8 then |items| else 8
    ensures forall i :: 0 <= i < |news| ==> news[i] == FormatItem(items[i], i, now)
  {
    var kept := Take(items, 8);
    seq(|kept|, i requires 0 <= i < |kept| => FormatItem(kept[i], i, now))
  }

  /** The field fallbacks of each formatted item: summary to headline,
      source to "Financial News", url to "#", a time in seconds to
      milliseconds and a missing one to one hour per position before now,
      and the sentiment read from headline and summary. */
  lemma FormatFinnhubNewsFields(items: seq<FinnhubItem>, now: nat, i: nat)
    requires i < |items| && i < 8
    ensures var n := FormatFinnhubNews(items, now)[i];
      && n.headline == items[i].headline
      && (Truthy(items[i].summary) ==> n.summary == items[i].summary.value)
      && (!Truthy(items[i].summary) ==> n.summary == items[i].headline)
      && (Truthy(items[i].source) ==> n.source == items[i].source.value)
      && (!Truthy(items[i].source) ==> n.source == "Financial News")
      && (Truthy(items[i].url) ==> n.url == items[i].url.value)
      && (!Truthy(items[i].url) ==> n.url == "#")
      && (TruthyInt(items[i].datetime) ==> n.datetime == items[i].datetime.value * 1000)
      && (!TruthyInt(items[i].datetime) ==> n.datetime == now - i * 3600000)
      && n.image == items[i].image
      && n.sentiment == Some(AnalyzeSentiment(items[i].headline + " " + StringOr(items[i].summary, "")))
  {
    FormattedAt(items, now, i);
  }

  /** Entry i of the formatted news is item i formatted at position i. */
  lemma FormattedAt(items: seq<FinnhubItem>, now: nat, i: nat)
    requires i < |items| && i < 8
    ensures |FormatFinnhubNews(items, now)| > i
    ensures FormatFinnhubNews(items, now)[i] == FormatItem(items[i], i, now)
  {
  }

  /** Two ids built at the same time are equal only when they come from
      the same id or position. */
  lemma NewsIdInjective(a: nat, b: nat, now: nat)
    requires NewsId(None, a, now) == NewsId(None, b, now)
    ensures a == b
  {
    var tail := "-" + NatToString(now);
    NewsIdOfIndex(a, now);
    NewsIdOfIndex(b, now);
    PrefixCancel("news-", NatToString(a) + tail, NatToString(b) + tail);
    DigitsBeforeDashInjective(NatToString(a), NatToString(b), tail, tail);
    NatToStringInjective(a, b);
  }

  lemma NewsIdOfIndex(a: nat, now: nat)
    ensures NewsId(None, a, now) == "news-" + (NatToString(a) + ("-" + NatToString(now)))
  {
  }

  /** Items without ids get distinct ids: the id embeds the position. */
  lemma FormatFinnhubNewsIdsDistinct(items: seq<FinnhubItem>, now: nat, i: nat, j: nat)
    requires i < j < |items| && j < 8
    requires items[i].id.None? && items[j].id.None?
    ensures FormatFinnhubNews(items, now)[i].id != FormatFinnhubNews(items, now)[j].id
  {
    FormattedAt(items, now, i);
    FormattedAt(items, now, j);
    if NewsId(None, i, now) == NewsId(None, j, now) {
      NewsIdInjective(i, j, now);
    }
  }

  /** `getStockNews`: the formatted body, or nothing when the request failed. */
  function GetStockNews(body: Option<seq<FinnhubItem>>, now: nat): (news: seq<StockNews>)
    ensures body.None? ==> news == []
    ensures body.Some? ==> news == FormatFinnhubNews(body.value, now)
  {
    match body
    case None => []
    case Some(items) => FormatFinnhubNews(items, now)
  }

  // ---------------------------------------------------------------------
  // Quotes and history

  /** The `meta` object of a chart result. */
  datatype QuoteMeta = QuoteMeta(
    symbol: string,
    regularMarketPrice: Num, previousClose: Num, chartPreviousClose: Num,
    regularMarketVolume: Num, marketCap: Num, trailingPE: Num, epsTrailingTwelveMonths: Num,
    fiftyTwoWeekHigh: Num, fiftyTwoWeekLow: Num, averageDailyVolume10Day: Num,
    regularMarketDayHigh: Num, regularMarketDayLow: Num)

  /** `indicators.quote[0]` of a chart result: the OHLCV columns, each
      None when absent. */
  datatype QuoteColumns = QuoteColumns(
    open: Option<seq<Num>>, high: Option<seq<Num>>, low: Option<seq<Num>>,
    close: Option<seq<Num>>, volume: Option<seq<Num>>)

  datatype ChartResult = ChartResult(meta: Option<QuoteMeta>, quote: Option<QuoteColumns>, timestamps: Option<seq<int>>)

  /** `response.data.chart.result`: None when the body, the chart or the
      result list is missing. */
  type ChartBody = Option<seq<ChartResult>>

  datatype ApiError =
    | InvalidData        // no chart result at all
    | IncompleteData     // a quote without meta, columns or closes
    | InvalidPrice       // no numeric current price or previous close
    | NoHistory          // a history without timestamps or columns
    | MissingColumn      // a column that is read is absent (a TypeError)
    | NonFinite          // a zero previous close (an infinite or NaN percent)

  /** The truthy entries of a column (`xs.filter(Boolean)`). */
  function TruthyValues(xs: seq<Num>): (r: seq<real>)
    ensures |r| <= |xs|
    ensures forall k :: 0 <= k < |r| ==> r[k] != 0.0 && Some(r[k]) in xs
    ensures forall k :: 0 <= k < |xs| && TruthyNum(xs[k]) ==> xs[k].value in r
  {
    if |xs| == 0 then []
    else (if TruthyNum(xs[0]) then [xs[0].value] else []) + TruthyValues(xs[1..])
  }

  function MaxOf(xs: seq<real>): (m: real)
    requires |xs| > 0
    ensures m in xs && forall k :: 0 <= k < |xs| ==> xs[k] <= m
  {
    if |xs| == 1 then xs[0]
    else
      var rest := MaxOf(xs[1..]);
      if xs[0] >= rest then xs[0] else rest
  }

  function MinOf(xs: seq<real>): (m: real)
    requires |xs| > 0
    ensures m in xs && forall k :: 0 <= k < |xs| ==> m <= xs[k]
  {
    if |xs| == 1 then xs[0]
    else
      var rest := MinOf(xs[1..]);
      if xs[0] <= rest then xs[0] else rest
  }

  /** The current price: the market price, else the last close. */
  function CurrentPrice(meta: QuoteMeta, close: seq<Num>): Num
    requires |close| > 0
  {
    if TruthyNum(meta.regularMarketPrice) then meta.regularMarketPrice else close[|close| - 1]
  }

  /** The previous close: the meta value, else the chart's previous close. */
  function PreviousClose(meta: QuoteMeta): Num
  {
    if TruthyNum(meta.previousClose) then meta.previousClose else meta.chartPreviousClose
  }

  /** `Math.max(...xs.filter(Boolean))`: -Infinity for no truthy value. */
  function MaxTruthy(xs: seq<Num>): Extended
  {
    var values := TruthyValues(xs);
    if |values| == 0 then MinusInfinity else Finite(MaxOf(values))
  }

  /** `Math.min(...xs.filter(Boolean))`: +Infinity for no truthy value. */
  function MinTruthy(xs: seq<Num>): Extended
  {
    var values := TruthyValues(xs);
    if |values| == 0 then PlusInfinity else Finite(MinOf(values))
  }

  /** The columns the quote literal reads are present: volume and open
      always, high and low when the meta has no day high or low. */
  predicate ColumnsRead(meta: QuoteMeta, quote: QuoteColumns)
  {
    && quote.volume.Some? && quote.open.Some?
    && (TruthyNum(meta.regularMarketDayHigh) || quote.high.Some?)
    && (TruthyNum(meta.regularMarketDayLow) || quote.low.Some?)
  }

  /** The quote built from a validated result, from `price` and
      `previousClose` on. Reading an absent column fails, as the property
      read throws in the source; a zero previous close fails where the
      source would divide by zero. */
  function BuildQuote(meta: QuoteMeta, quote: QuoteColumns, latest: int, price: real, previousClose: real, now: int): Result<StockQuote, ApiError>
  {
    if !ColumnsRead(meta, quote) then Failure(MissingColumn)
    else if previousClose == 0.0 then Failure(NonFinite)
    else
      var change := price - previousClose;
      var volume := quote.volume.value;
      Success(StockQuote(
        meta.symbol, GetCompanyName(meta.symbol),
        price, change, PercentChange(change, previousClose),
        NumOr(NumAt(volume, latest), NumOr(meta.regularMarketVolume, 0.0)),
        NumOr(meta.marketCap, 0.0),
        NumOr(meta.trailingPE, 0.0),
        NumOr(meta.epsTrailingTwelveMonths, 0.0),
        NumOr(meta.fiftyTwoWeekHigh, price * 1.2),
        NumOr(meta.fiftyTwoWeekLow, price * 0.8),
        NumOr(meta.averageDailyVolume10Day, NumOr(NumAt(volume, latest), 0.0)),
        NumOr(NumAt(quote.open.value, 0), price),
        previousClose,
        if TruthyNum(meta.regularMarketDayHigh) then Finite(meta.regularMarketDayHigh.value) else MaxTruthy(quote.high.value),
        if TruthyNum(meta.regularMarketDayLow) then Finite(meta.regularMarketDayLow.value) else MinTruthy(quote.low.value),
        now))
  }

  /** A result is complete when it has meta, columns and at least one close. */
  predicate Complete(result: ChartResult)
  {
    result.meta.Some? && result.quote.Some? && result.quote.value.close.Some? && |result.quote.value.close.value| > 0
  }

  /** `getQuote` after the request: validate the chart body and build the quote. */
  function GetQuote(body: ChartBody, now: int): Result<StockQuote, ApiError>
  {
    if body.None? || |body.value| == 0 then Failure(InvalidData)
    else if !Complete(body.value[0]) then Failure(IncompleteData)
    else
      var meta := body.value[0].meta.value;
      var quote := body.value[0].quote.value;
      var close := quote.close.value;
      var currentPrice := CurrentPrice(meta, close);
      var previousClose := PreviousClose(meta);
      if currentPrice.None? || previousClose.None? then Failure(InvalidPrice)
      else BuildQuote(meta, quote, |close| - 1, currentPrice.value, previousClose.value, now)
  }

  /** The outcomes of `getQuote`: an empty body, a result without meta,
      columns or closes, and a price or previous close that is not a number
      are rejected; otherwise the quote is built, which succeeds exactly
      when the columns it reads are present and the previous close is not 0. */
  lemma GetQuoteRejects(body: ChartBody, now: int)
    ensures body.None? || |body.value| == 0 ==> GetQuote(body, now) == Failure(InvalidData)
    ensures body.Some? && |body.value| > 0 && !Complete(body.value[0]) ==> GetQuote(body, now) == Failure(IncompleteData)
    ensures body.Some? && |body.value| > 0 && Complete(body.value[0]) ==>
      var meta := body.value[0].meta.value;
      var quote := body.value[0].quote.value;
      var close := quote.close.value;
      && ((CurrentPrice(meta, close).None? || PreviousClose(meta).None?) ==> GetQuote(body, now) == Failure(InvalidPrice))
      && (CurrentPrice(meta, close).Some? && PreviousClose(meta).Some? ==>
            && (!ColumnsRead(meta, quote) ==> GetQuote(body, now) == Failure(MissingColumn))
            && (ColumnsRead(meta, quote) && PreviousClose(meta).value == 0.0 ==> GetQuote(body, now) == Failure(NonFinite))
            && (ColumnsRead(meta, quote) && PreviousClose(meta).value != 0.0 ==>
                  GetQuote(body, now).Success? && GetQuote(body, now).value.price == CurrentPrice(meta, close).value))
  {
  }

  /** A built quote carries the meta symbol and its table name, a change
      that is the price minus the previous close, a percent change relative
      to the previous close, the first truthy open or the price, and a day
      range taken from the meta or else the largest (smallest) truthy value
      of the column, infinite when the column has none. */
  lemma BuildQuoteProperties(meta: QuoteMeta, quote: QuoteColumns, latest: int, price: real, previousClose: real, now: int)
    ensures var r := BuildQuote(meta, quote, latest, price, previousClose, now);
      && (!ColumnsRead(meta, quote) ==> r == Failure(MissingColumn))
      && (ColumnsRead(meta, quote) && previousClose == 0.0 ==> r == Failure(NonFinite))
      && (ColumnsRead(meta, quote) && previousClose != 0.0 ==> r.Success?)
    ensures var r := BuildQuote(meta, quote, latest, price, previousClose, now);
      r.Success? ==>
      var q := r.value;
      && q.symbol == meta.symbol && q.name == GetCompanyName(meta.symbol)
      && q.price == price && q.previousClose == previousClose
      && q.change == price - previousClose
      && q.changePercent == PercentChange(price - previousClose, previousClose)
      && (TruthyNum(NumAt(quote.open.value, 0)) ==> q.open == quote.open.value[0].value)
      && (!TruthyNum(NumAt(quote.open.value, 0)) ==> q.open == price)
      && (TruthyNum(meta.regularMarketDayHigh) ==> q.dayHigh == Finite(meta.regularMarketDayHigh.value))
      && (!TruthyNum(meta.regularMarketDayHigh) ==> DayRangeHigh(quote.high.value, q.dayHigh))
      && (TruthyNum(meta.regularMarketDayLow) ==> q.dayLow == Finite(meta.regularMarketDayLow.value))
      && (!TruthyNum(meta.regularMarketDayLow) ==> DayRangeLow(quote.low.value, q.dayLow))
      && q.timestamp == now
  {
    if BuildQuote(meta, quote, latest, price, previousClose, now).Success? {
      if !TruthyNum(meta.regularMarketDayHigh) {
        MaxTruthyMeaning(quote.high.value);
      }
      if !TruthyNum(meta.regularMarketDayLow) {
        MinTruthyMeaning(quote.low.value);
      }
    }
  }

  /** `high` is the largest truthy entry of the column, or -Infinity when
      the column has no truthy entry. */
  ghost predicate DayRangeHigh(xs: seq<Num>, high: Extended)
  {
    && (high == MinusInfinity <==> forall k :: 0 <= k < |xs| ==> !TruthyNum(xs[k]))
    && (high.Finite? ==>
          && (exists k :: 0 <= k < |xs| && TruthyNum(xs[k]) && xs[k].value == high.value)
          && forall k :: 0 <= k < |xs| && TruthyNum(xs[k]) ==> xs[k].value <= high.value)
    && !high.PlusInfinity?
  }

  /** `low` is the smallest truthy entry of the column, or +Infinity when
      the column has no truthy entry. */
  ghost predicate DayRangeLow(xs: seq<Num>, low: Extended)
  {
    && (low == PlusInfinity <==> forall k :: 0 <= k < |xs| ==> !TruthyNum(xs[k]))
    && (low.Finite? ==>
          && (exists k :: 0 <= k < |xs| && TruthyNum(xs[k]) && xs[k].value == low.value)
          && forall k :: 0 <= k < |xs| && TruthyNum(xs[k]) ==> low.value <= xs[k].value)
    && !low.MinusInfinity?
  }

  lemma MaxTruthyMeaning(xs: seq<Num>)
    ensures DayRangeHigh(xs, MaxTruthy(xs))
  {
    var values := TruthyValues(xs);
    if |values| > 0 {
      TruthyMaxBound(xs);
      TruthyValueAt(xs, MaxOf(values));
    } else {
      TruthyValuesEmpty(xs);
    }
  }

  lemma MinTruthyMeaning(xs: seq<Num>)
    ensures DayRangeLow(xs, MinTruthy(xs))
  {
    var values := TruthyValues(xs);
    if |values| > 0 {
      TruthyMinBound(xs);
      TruthyValueAt(xs, MinOf(values));
    } else {
      TruthyValuesEmpty(xs);
    }
  }

  /** A value among the truthy values is a truthy entry of the column. */
  lemma TruthyValueAt(xs: seq<Num>, v: real)
    requires v in TruthyValues(xs)
    ensures exists k :: 0 <= k < |xs| && TruthyNum(xs[k]) && xs[k].value == v
  {
    var values := TruthyValues(xs);
    var m :| 0 <= m < |values| && values[m] == v;
    assert Some(v) in xs;
    var k :| 0 <= k < |xs| && xs[k] == Some(v);
    assert TruthyNum(xs[k]);
  }

  /** No truthy values means no truthy entry. */
  lemma TruthyValuesEmpty(xs: seq<Num>)
    requires |TruthyValues(xs)| == 0
    ensures forall k :: 0 <= k < |xs| ==> !TruthyNum(xs[k])
  {
  }

  /** The largest truthy value of a column bounds every truthy entry. */
  lemma TruthyMaxBound(xs: seq<Num>)
    requires |TruthyValues(xs)| > 0
    ensures forall k :: 0 <= k < |xs| && TruthyNum(xs[k]) ==> xs[k].value <= MaxOf(TruthyValues(xs))
  {
    var values := TruthyValues(xs);
    forall k | 0 <= k < |xs| && TruthyNum(xs[k])
      ensures xs[k].value <= MaxOf(values)
    {
      var m :| 0 <= m < |values| && values[m] == xs[k].value;
    }
  }

  /** The smallest truthy value of a column bounds every truthy entry. */
  lemma TruthyMinBound(xs: seq<Num>)
    requires |TruthyValues(xs)| > 0
    ensures forall k :: 0 <= k < |xs| && TruthyNum(xs[k]) ==> MinOf(TruthyValues(xs)) <= xs[k].value
  {
    var values := TruthyValues(xs);
    forall k | 0 <= k < |xs| && TruthyNum(xs[k])
      ensures MinOf(values) <= xs[k].value
    {
      var m :| 0 <= m < |values| && values[m] == xs[k].value;
    }
  }

  /** `change / base * 100`: the change as a percentage of the base. */
  function PercentChange(change: real, base: real): real
    requires base != 0.0
  {
    change / base * 100.0
  }

  /** The percentage times the base is a hundred times the change, and its
      sign is the change's sign when the base is positive. */
  lemma PercentChangeMeaning(change: real, base: real)
    requires base != 0.0
    ensures PercentChange(change, base) * base == change * 100.0
    ensures base > 0.0 ==> (PercentChange(change, base) > 0.0 <==> change > 0.0)
    ensures base > 0.0 ==> (PercentChange(change, base) < 0.0 <==> change < 0.0)
  {
  }

  /** A successful quote comes from a complete result whose current price
      and previous close are numbers, the previous close not 0, and whose
      read columns are present; it is the quote built from them. */
  lemma GetQuoteAccepts(body: ChartBody, now: int)
    requires GetQuote(body, now).Success?
    ensures body.Some? && |body.value| > 0 && Complete(body.value[0])
    ensures var meta := body.value[0].meta.value;
      var quote := body.value[0].quote.value;
      var close := quote.close.value;
      && CurrentPrice(meta, close).Some? && PreviousClose(meta).Some? && PreviousClose(meta).value != 0.0
      && ColumnsRead(meta, quote)
      && GetQuote(body, now) == BuildQuote(meta, quote, |close| - 1, CurrentPrice(meta, close).value, PreviousClose(meta).value, now)
  {
  }

  /** All five columns are present. */
  predicate Full(quote: QuoteColumns)
  {
    quote.open.Some? && quote.high.Some? && quote.low.Some? && quote.close.Some? && quote.volume.Some?
  }

  /** One historical bar: seconds to milliseconds, a falsy value to 0. */
  function HistoryBar(timestamp: int, quote: QuoteColumns, index: nat): Bar
    requires Full(quote)
  {
    Bar(timestamp * 1000,
        NumOr(NumAt(quote.open.value, index), 0.0),
        NumOr(NumAt(quote.high.value, index), 0.0),
        NumOr(NumAt(quote.low.value, index), 0.0),
        NumOr(NumAt(quote.close.value, index), 0.0),
        NumOr(NumAt(quote.volume.value, index), 0.0))
  }

  /** `getHistoricalData` after the request: validate the chart body and
      map every timestamp to a bar. */
  function GetHistoricalData(body: ChartBody): Result<seq<Bar>, ApiError>
  {
    if body.None? || |body.value| == 0 then Failure(InvalidData)
    else
      var result := body.value[0];
      if result.timestamps.None? || result.quote.None? || |result.timestamps.value| == 0 then Failure(NoHistory)
      else if !Full(result.quote.value) then Failure(MissingColumn)
      else
        var timestamps := result.timestamps.value;
        var quote := result.quote.value;
        Success(seq(|timestamps|, i requires 0 <= i < |timestamps| => HistoryBar(timestamps[i], quote, i)))
  }

  /** One bar per timestamp, in order, at the timestamp in milliseconds,
      each value the column's entry when truthy and 0 otherwise; and the
      rejections of an empty body, of a result without timestamps or
      columns, and of a result missing one of the five columns. */
  lemma HistoricalDataShape(body: ChartBody)
    ensures body.None? || |body.value| == 0 ==> GetHistoricalData(body) == Failure(InvalidData)
    ensures body.Some? && |body.value| > 0 ==>
      var result := body.value[0];
      && ((result.timestamps.None? || result.quote.None? || |result.timestamps.value| == 0) ==> GetHistoricalData(body) == Failure(NoHistory))
      && (result.timestamps.Some? && result.quote.Some? && |result.timestamps.value| > 0 && !Full(result.quote.value) ==>
            GetHistoricalData(body) == Failure(MissingColumn))
    ensures GetHistoricalData(body).Success? ==>
      var result := body.value[0];
      var timestamps := result.timestamps.value;
      var quote := result.quote.value;
      var bars := GetHistoricalData(body).value;
      && Full(quote)
      && |bars| == |timestamps| > 0
      && forall i :: 0 <= i < |bars| ==>
           && bars[i].timestamp == timestamps[i] * 1000
           && bars[i].open == (if TruthyNum(NumAt(quote.open.value, i)) then quote.open.value[i].value else 0.0)
           && bars[i].high == (if TruthyNum(NumAt(quote.high.value, i)) then quote.high.value[i].value else 0.0)
           && bars[i].low == (if TruthyNum(NumAt(quote.low.value, i)) then quote.low.value[i].value else 0.0)
           && bars[i].close == (if TruthyNum(NumAt(quote.close.value, i)) then quote.close.value[i].value else 0.0)
           && bars[i].volume == (if TruthyNum(NumAt(quote.volume.value, i)) then quote.volume.value[i].value else 0.0)
  {
  }

  /** Bars come out in the order of their timestamps: increasing timestamps
      give increasing bar times. */
  lemma HistoricalDataOrdered(body: ChartBody)
    requires GetHistoricalData(body).Success?
    requires var ts := body.value[0].timestamps.value; forall i, j :: 0 <= i < j < |ts| ==> ts[i] < ts[j]
    ensures var bars := GetHistoricalData(body).value;
      forall i, j :: 0 <= i < j < |bars| ==> bars[i].timestamp < bars[j].timestamp
  {
  }
}
