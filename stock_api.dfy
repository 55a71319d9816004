/** The demo data service of lib/services/stockApi.ts: search over the fixed
    stock list, the name and base-price tables, the time-frame day counts,
    and the shape of the generated history, trending list and news.
    `Math.random()` is an oracle `rand`, read at consecutive draw indices;
    `Date.now()` is the parameter `now`. */
module StockApi {
  import opened Wrappers
  import opened Types
  import opened Seqs
  import opened Text
  import opened Companies

  /** `Math.random()` returns values in [0, 1). */
  ghost predicate IsRandom(rand: nat -> real)
  {
    forall k :: 0.0 <= rand(k) < 1.0
  }

  // ---------------------------------------------------------------------
  // Search

  predicate Matches(stock: SymbolName, query: string)
  {
    Contains(ToLower(stock.symbol), ToLower(query)) || Contains(ToLower(stock.name), ToLower(query))
  }

  /** `searchStocks`: the listed stocks whose symbol or name contains the
      query, ignoring case, in list order, at most 10. */
  function SearchStocks(query: string): seq<SymbolName>
  {
    SearchIn(KnownStocks, query)
  }

  /** The search over a given stock list. */
  function SearchIn(stocks: seq<SymbolName>, query: string): seq<SymbolName>
  {
    Take(Filter(stocks, s => Matches(s, query)), 10)
  }

  /** At most 10 results, each a stock of the list matching the query; and
      when no more than 10 stocks match, every matching stock is returned. */
  lemma SearchSound(stocks: seq<SymbolName>, query: string)
    ensures |SearchIn(stocks, query)| <= 10
    ensures forall i :: 0 <= i < |SearchIn(stocks, query)| ==>
      SearchIn(stocks, query)[i] in stocks && Matches(SearchIn(stocks, query)[i], query)
    ensures |Filter(stocks, s => Matches(s, query))| <= 10 ==>
      forall i :: 0 <= i < |stocks| && Matches(stocks[i], query) ==> stocks[i] in SearchIn(stocks, query)
  {
    TakeOfFilter(stocks, s => Matches(s, query), 10);
  }

  /** Results come out in list order: the matches among the first k stocks
      precede the matches among the rest. */
  lemma SearchOrder(stocks: seq<SymbolName>, query: string, k: nat)
    requires k <= |stocks|
    ensures Filter(stocks, s => Matches(s, query))
         == Filter(stocks[..k], s => Matches(s, query)) + Filter(stocks[k..], s => Matches(s, query))
  {
    assert stocks == stocks[..k] + stocks[k..];
    FilterAppend(stocks[..k], stocks[k..], s => Matches(s, query));
  }

  /** The empty query matches everything, so it returns the first 10 stocks. */
  lemma SearchEmptyQuery(stocks: seq<SymbolName>)
    ensures SearchIn(stocks, "") == Take(stocks, 10)
  {
    forall i | 0 <= i < |stocks|
      ensures Matches(stocks[i], "")
    {
      assert OccursAt(ToLower(stocks[i].symbol), "", 0);
    }
    FilterAll(stocks, s => Matches(s, ""));
  }

  /** The search ignores the case of the query. */
  lemma SearchIgnoresCase(stocks: seq<SymbolName>, query: string)
    ensures SearchIn(stocks, ToUpper(query)) == SearchIn(stocks, query)
  {
    assert ToLower(ToUpper(query)) == ToLower(query);
    FilterCongruent(stocks, s => Matches(s, ToUpper(query)), s => Matches(s, query));
  }

  // ---------------------------------------------------------------------
  // Lookup tables

  /** `getCompanyName`: the table name of the upper-cased symbol, else
      "<SYMBOL> Company". */
  function GetCompanyName(symbol: string): (r: string)
    ensures LookupName(ToUpper(symbol)).Some? ==> r == LookupName(ToUpper(symbol)).value
    ensures LookupName(ToUpper(symbol)).None? ==> r == ToUpper(symbol) + " Company"
  {
    match LookupName(ToUpper(symbol))
    case Some(name) => name
    case None => ToUpper(symbol) + " Company"
  }

  /** The name lookup ignores case. */
  lemma GetCompanyNameIgnoresCase(symbol: string)
    ensures GetCompanyName(ToLower(symbol)) == GetCompanyName(symbol)
  {
    assert ToUpper(ToLower(symbol)) == ToUpper(symbol);
  }

  const BasePrices: seq<(string, real)> := [
    ("AAPL", 178.50), ("MSFT", 380.00), ("GOOGL", 140.00), ("AMZN", 155.00),
    ("TSLA", 245.00), ("NVDA", 495.00), ("META", 350.00), ("NFLX", 450.00),
    ("JPM", 150.00), ("V", 250.00), ("WMT", 160.00), ("DIS", 95.00),
    ("BA", 210.00), ("GE", 110.00), ("F", 12.50)
  ]

  function LookupPrice(table: seq<(string, real)>, symbol: string): Option<real>
  {
    if |table| == 0 then None
    else if table[0].0 == symbol then Some(table[0].1)
    else LookupPrice(table[1..], symbol)
  }

  /** `getBasePriceForSymbol`: the table price of the upper-cased symbol,
      else 100 + 200 * draw for one `Math.random()` draw. */
  function GetBasePriceForSymbol(symbol: string, draw: real): real
  {
    match LookupPrice(BasePrices, ToUpper(symbol))
    case Some(price) => price
    case None => 100.0 + draw * 200.0
  }

  /** Whether the base price consumes a random draw. */
  predicate DrawsBasePrice(symbol: string)
  {
    LookupPrice(BasePrices, ToUpper(symbol)).None?
  }

  lemma {:induction false} LookupPricePositive(table: seq<(string, real)>, symbol: string)
    requires forall i :: 0 <= i < |table| ==> table[i].1 > 0.0
    ensures LookupPrice(table, symbol).Some? ==> LookupPrice(table, symbol).value > 0.0
  {
    if |table| > 0 && table[0].0 != symbol {
      LookupPricePositive(table[1..], symbol);
    }
  }

  /** Every base price is positive, and an unknown symbol's lies in [100, 300). */
  lemma BasePricePositive(symbol: string, draw: real)
    requires 0.0 <= draw < 1.0
    ensures GetBasePriceForSymbol(symbol, draw) > 0.0
    ensures DrawsBasePrice(symbol) ==> 100.0 <= GetBasePriceForSymbol(symbol, draw) < 300.0
  {
    LookupPricePositive(BasePrices, ToUpper(symbol));
  }

  /** `getTimeFrameDays`. */
  function GetTimeFrameDays(timeFrame: TimeFrame): nat
  {
    match timeFrame
    case OneDay => 1
    case FiveDays => 5
    case OneMonth => 30
    case ThreeMonths => 90
    case SixMonths => 180
    case OneYear => 365
    case FiveYears => 1825
    case Max => 3650
  }

  /** Longer time frames cover more days. */
  lemma TimeFrameDaysIncreasing()
    ensures GetTimeFrameDays(OneDay) < GetTimeFrameDays(FiveDays) < GetTimeFrameDays(OneMonth)
         < GetTimeFrameDays(ThreeMonths) < GetTimeFrameDays(SixMonths) < GetTimeFrameDays(OneYear)
         < GetTimeFrameDays(FiveYears) < GetTimeFrameDays(Max)
  {
  }

  // ---------------------------------------------------------------------
  // Generated history

  /** The instant `days` whole days before `now`, in milliseconds. */
  function DaysBefore(now: int, days: int): int
  {
    now - days * 86400000
  }

  function MaxReal(a: real, b: real): real { if a >= b then a else b }

  function MinReal(a: real, b: real): real { if a <= b then a else b }

  /** A draw scaled by a positive amount stays within [0, amount). */
  lemma ScaledDraw(r: real, amount: real)
    requires 0.0 <= r < 1.0 && amount > 0.0
    ensures 0.0 <= r * amount < amount
  {
  }

  /** One day of the random walk: the close moves by (draw - 0.5) times 2%
      of the previous close. */
  function Walk(price: real, draw: real): real
  {
    price + (draw - 0.5) * price * 0.02
  }

  /** A step of the walk moves the price by less than 1% either way. */
  lemma WalkBounds(price: real, draw: real)
    requires price > 0.0 && 0.0 <= draw < 1.0
    ensures 0.99 * price <= Walk(price, draw) < 1.01 * price
  {
    ScaledDraw(draw, price);
    assert Walk(price, draw) == price + 0.02 * (draw * price) - 0.01 * price;
  }

  /** The open's offset from the close is under half a percent either way. */
  lemma OpenBound(draw: real, close: real)
    requires 0.0 <= draw < 1.0 && close > 0.0
    ensures 0.995 * close <= close + (draw - 0.5) * close * 0.01 < 1.005 * close
  {
    ScaledDraw(draw, close);
    assert close + (draw - 0.5) * close * 0.01 == close + 0.01 * (draw * close) - 0.005 * close;
  }

  /** The high lies at or above both the open and the close. */
  lemma HighBound(close: real, open: real, highDraw: real)
    requires close > 0.0 && 0.0 <= highDraw < 1.0
    ensures var high := MaxReal(open, close) + highDraw * close * 0.01;
      open <= high && close <= high
  {
    ScaledDraw(highDraw, close);
    assert highDraw * close * 0.01 == 0.01 * (highDraw * close);
  }

  /** The low lies at or below both the open and the close, and stays
      positive when the open is at least 99.5% of the close: it reaches
      less than 1% of the close further down. */
  lemma LowBound(close: real, open: real, lowDraw: real)
    requires close > 0.0 && 0.995 * close <= open && 0.0 <= lowDraw < 1.0
    ensures var low := MinReal(open, close) - lowDraw * close * 0.01;
      0.0 < low && low <= open && low <= close
  {
    ScaledDraw(lowDraw, close);
    assert 0.0 <= lowDraw * close * 0.01 < 0.01 * close;
    Below(close, MinReal(open, close), lowDraw * close * 0.01);
  }

  lemma Below(close: real, m: real, depth: real)
    requires close > 0.0 && m >= 0.995 * close && 0.0 <= depth < 0.01 * close
    ensures 0.0 < m - depth <= m
  {
  }

  /** A well-formed daily bar: positive prices, the low and high bracketing
      the open and the close, and a volume of 10 to 60 million shares. */
  predicate Plausible(b: Bar)
  {
    && 0.0 < b.low <= b.open <= b.high
    && b.low <= b.close <= b.high
    && 10000000.0 <= b.volume < 60000000.0
  }

  /** The day's bar around its close: the open within half a percent of it,
      the high and low a further draw of up to 1% beyond them, and the
      volume 10 to 60 million shares. */
  function MakeBar(timestamp: int, close: real, openDraw: real, highDraw: real, lowDraw: real, volumeDraw: real): (b: Bar)
    requires close > 0.0
    requires 0.0 <= openDraw < 1.0 && 0.0 <= highDraw < 1.0 && 0.0 <= lowDraw < 1.0 && 0.0 <= volumeDraw < 1.0
    ensures b.timestamp == timestamp && b.close == close
    ensures Plausible(b)
  {
    var open := close + (openDraw - 0.5) * close * 0.01;
    var high := MaxReal(open, close) + highDraw * close * 0.01;
    var low := MinReal(open, close) - lowDraw * close * 0.01;
    OpenBound(openDraw, close);
    HighBound(close, open, highDraw);
    LowBound(close, open, lowDraw);
    ScaledDraw(volumeDraw, 50000000.0);
    var volume := (volumeDraw * 50000000.0).Floor + 10000000;
    Bar(timestamp, open, high, low, close, volume as real)
  }

  /** The first n closes of a walk that starts at `start` and reads the
      step of day j (counting from the oldest bar) from draw `first + 5 * j`. */
  function WalkFrom(start: real, rand: nat -> real, first: nat, n: nat): (closes: seq<real>)
    ensures |closes| == n
  {
    if n == 0 then []
    else
      var earlier := WalkFrom(start, rand, first, n - 1);
      earlier + [Walk(if n == 1 then start else earlier[n - 2], rand(first + 5 * (n - 1)))]
  }

  /** A longer walk extends a shorter one with the same draws. */
  lemma {:induction false} WalkFromPrefix(start: real, rand: nat -> real, first: nat, m: nat, n: nat)
    requires m <= n
    ensures WalkFrom(start, rand, first, n)[..m] == WalkFrom(start, rand, first, m)
  {
    if m < n {
      WalkFromPrefix(start, rand, first, m, n - 1);
      var earlier := WalkFrom(start, rand, first, n - 1);
      assert WalkFrom(start, rand, first, n)[..n - 1] == earlier;
      assert WalkFrom(start, rand, first, n)[..m] == earlier[..m];
    }
  }

  /** Day j's close is one step of the walk from the close before it
      (from `start` for the oldest), using draw `first + 5 * j`. */
  lemma WalkFromStep(start: real, rand: nat -> real, first: nat, n: nat, j: nat)
    requires j < n
    ensures var closes := WalkFrom(start, rand, first, n);
      closes[j] == Walk(if j == 0 then start else closes[j - 1], rand(first + 5 * j))
  {
    WalkFromPrefix(start, rand, first, j + 1, n);
    var closes := WalkFrom(start, rand, first, n);
    assert closes[j] == closes[..j + 1][j];
    assert j > 0 ==> closes[j - 1] == closes[..j + 1][j - 1];
    if j > 0 {
      WalkFromPrefix(start, rand, first, j, j + 1);
      assert WalkFrom(start, rand, first, j + 1)[..j] == WalkFrom(start, rand, first, j);
    }
  }

  /** Every close of the walk is positive. */
  lemma {:induction false} WalkFromPositive(start: real, rand: nat -> real, first: nat, n: nat)
    requires IsRandom(rand) && start > 0.0
    ensures forall j :: 0 <= j < n ==> WalkFrom(start, rand, first, n)[j] > 0.0
  {
    if n > 0 {
      WalkFromPositive(start, rand, first, n - 1);
      var earlier := WalkFrom(start, rand, first, n - 1);
      var prev := if n == 1 then start else earlier[n - 2];
      assert prev > 0.0;
      WalkBounds(prev, rand(first + 5 * (n - 1)));
    }
  }

  /** Consecutive closes of the walk differ by less than 1%. */
  lemma WalkFromSteady(start: real, rand: nat -> real, first: nat, n: nat, j: nat)
    requires IsRandom(rand) && start > 0.0 && 0 < j < n
    ensures var closes := WalkFrom(start, rand, first, n);
      0.99 * closes[j - 1] <= closes[j] < 1.01 * closes[j - 1]
  {
    WalkFromPositive(start, rand, first, n);
    WalkFromStep(start, rand, first, n, j);
    var closes := WalkFrom(start, rand, first, n);
    WalkBounds(closes[j - 1], rand(first + 5 * j));
  }

  /** The closes of a run of bars. */
  function Closes(data: seq<Bar>): (closes: seq<real>)
    ensures |closes| == |data|
  {
    seq(|data|, j requires 0 <= j < |data| => data[j].close)
  }

  /** `getHistoricalData`: one bar per day from `days` days ago up to today,
      oldest first, the closes following a random walk that starts 10% below
      the symbol's base price. The base price of an unlisted symbol spends
      the first draw. */
  method GetHistoricalData(symbol: string, timeFrame: TimeFrame, now: int, rand: nat -> real)
    returns (data: seq<Bar>)
    requires IsRandom(rand)
    ensures |data| == GetTimeFrameDays(timeFrame) + 1
    ensures data[|data| - 1].timestamp == now
    ensures forall j :: 0 <= j < |data| ==> data[j].timestamp == DaysBefore(now, |data| - 1 - j)
    ensures forall j :: 0 <= j < |data| ==> Plausible(data[j])
    ensures Closes(data) == WalkFrom(GetBasePriceForSymbol(symbol, rand(0)) * 0.9, rand, if DrawsBasePrice(symbol) then 1 else 0, |data|)
  {
    var days := GetTimeFrameDays(timeFrame);
    var basePrice := GetBasePriceForSymbol(symbol, rand(0));
    BasePricePositive(symbol, rand(0));
    var first: nat := if DrawsBasePrice(symbol) then 1 else 0;
    data := GenerateBars(days, basePrice * 0.9, first, now, rand);
  }

  /** The generation loop of `getHistoricalData`: counting i down from
      `days` to 0, it steps the walk from `start`, spends five draws from
      `first` on, and appends the bar of the day i days before now. */
  method GenerateBars(days: nat, start: real, first: nat, now: int, rand: nat -> real)
    returns (data: seq<Bar>)
    requires IsRandom(rand) && start > 0.0
    ensures |data| == days + 1
    ensures data[|data| - 1].timestamp == now
    ensures forall j :: 0 <= j < |data| ==> data[j].timestamp == DaysBefore(now, days - j)
    ensures forall j :: 0 <= j < |data| ==> Plausible(data[j])
    ensures Closes(data) == WalkFrom(start, rand, first, |data|)
  {
    var next := first;
    var currentPrice := start;
    data := [];
    var i: int := days;
    while i >= 0
      invariant -1 <= i <= days
      invariant |data| == days - i
      invariant next == first + 5 * |data|
      invariant currentPrice > 0.0
      invariant currentPrice == if |data| == 0 then start else data[|data| - 1].close
      invariant Closes(data) == WalkFrom(start, rand, first, |data|)
      invariant forall j :: 0 <= j < |data| ==> data[j].timestamp == DaysBefore(now, days - j)
      invariant forall j :: 0 <= j < |data| ==> Plausible(data[j])
    {
      var timestamp := DaysBefore(now, i);
      WalkBounds(currentPrice, rand(next));
      currentPrice := Walk(currentPrice, rand(next));
      var bar := MakeBar(timestamp, currentPrice, rand(next + 1), rand(next + 2), rand(next + 3), rand(next + 4));
      ClosesSnoc(data, bar);
      data := data + [bar];
      next := next + 5;
      i := i - 1;
    }
  }

  lemma ClosesSnoc(data: seq<Bar>, bar: Bar)
    ensures Closes(data + [bar]) == Closes(data) + [bar.close]
  {
  }

  // ---------------------------------------------------------------------
  // Trending stocks and news

  datatype TrendingStock = TrendingStock(symbol: string, name: string, change: real)

  const TrendingSymbols: seq<string> := ["AAPL", "MSFT", "GOOGL", "AMZN", "TSLA", "NVDA", "META", "NFLX"]

  /** `parseFloat(x.toFixed(2))` on exact reals: the sign is set aside,
      the magnitude goes to the nearest multiple of 0.01 (the larger one on
      a tie), and the sign is put back, so ties round away from zero. */
  function ToFixed2(x: real): real
  {
    if x < 0.0 then -(((-x) * 100.0 + 0.5).Floor as real) * 0.01
    else ((x * 100.0 + 0.5).Floor as real) * 0.01
  }

  /** The rounded value is a whole number of hundredths within half a
      hundredth of the input, a tie going away from zero, and rounding is
      symmetric in the sign. */
  lemma ToFixed2Meaning(x: real)
    ensures (ToFixed2(x) * 100.0).Floor as real == ToFixed2(x) * 100.0
    ensures x >= 0.0 ==> x - 0.005 < ToFixed2(x) <= x + 0.005
    ensures x < 0.0 ==> x - 0.005 <= ToFixed2(x) < x + 0.005
    ensures x > 0.0 ==> ToFixed2(-x) == -ToFixed2(x)
  {
    if x < 0.0 {
      RoundMagnitude(-x);
      var m := ((-x) * 100.0 + 0.5).Floor;
      assert ToFixed2(x) == -(m as real) * 0.01;
      assert ToFixed2(x) * 100.0 == (-m) as real;
      assert (ToFixed2(x) * 100.0).Floor == -m;
    } else {
      RoundMagnitude(x);
      if x > 0.0 {
        assert -(-x) == x;
      }
    }
  }

  /** Rounding a magnitude to the nearest hundredth, the larger on a tie. */
  lemma RoundMagnitude(y: real)
    requires y >= 0.0
    ensures var r := ((y * 100.0 + 0.5).Floor as real) * 0.01;
      && (r * 100.0).Floor as real == r * 100.0
      && y - 0.005 < r <= y + 0.005
  {
    var n := (y * 100.0 + 0.5).Floor;
    var r := (n as real) * 0.01;
    assert n as real <= y * 100.0 + 0.5 < n as real + 1.0;
    assert r * 100.0 == n as real;
    assert (r * 100.0).Floor == n;
  }

  /** The two ties at plus and minus an eighth: 0.13 and -0.13. */
  lemma ToFixed2Ties()
    ensures ToFixed2(0.125) == 0.13 && ToFixed2(-0.125) == -0.13
  {
    assert (0.125 * 100.0 + 0.5).Floor == 13;
  }

  /** `getTrendingStocks`: the eight listed symbols in order, each with its
      table name and a change of (draw - 0.4) * 5 percent to two decimals. */
  function GetTrendingStocks(rand: nat -> real): (r: seq<TrendingStock>)
  {
    seq(|TrendingSymbols|, k requires 0 <= k < |TrendingSymbols| =>
      TrendingStock(TrendingSymbols[k], GetCompanyName(TrendingSymbols[k]), ToFixed2((rand(k) - 0.4) * 5.0)))
  }

  /** Rounding a value of [-2, 3) to two decimals stays in [-2, 3]. */
  lemma TrendingChangeBounds(u: real)
    requires -2.0 <= u < 3.0
    ensures -2.0 <= ToFixed2(u) <= 3.0
    ensures u - 0.005 <= ToFixed2(u) <= u + 0.005
  {
    ToFixed2Meaning(u);
    if u < 0.0 {
      var n := ((-u) * 100.0 + 0.5).Floor;
      assert 0.5 < (-u) * 100.0 + 0.5 <= 200.5;
      assert 0 <= n <= 200;
    } else {
      var n := (u * 100.0 + 0.5).Floor;
      assert 0.5 <= u * 100.0 + 0.5 < 300.5;
      assert 0 <= n <= 300;
    }
  }

  /** Exactly the eight symbols, in order, named from the table. */
  lemma TrendingStocksShape(rand: nat -> real)
    ensures |GetTrendingStocks(rand)| == 8
    ensures forall k :: 0 <= k < 8 ==>
      GetTrendingStocks(rand)[k].symbol == TrendingSymbols[k]
      && LookupName(TrendingSymbols[k]).Some?
      && GetTrendingStocks(rand)[k].name == LookupName(TrendingSymbols[k]).value
  {
    var r := GetTrendingStocks(rand);
    forall k | 0 <= k < 8
      ensures r[k].symbol == TrendingSymbols[k]
      ensures LookupName(TrendingSymbols[k]).Some?
      ensures r[k].name == LookupName(TrendingSymbols[k]).value
    {
      var symbol := TrendingSymbols[k];
      assert KnownStocks[k].symbol == symbol;
      UpperCaseFixed(symbol);
      assert r[k] == TrendingStock(symbol, GetCompanyName(symbol), ToFixed2((rand(k) - 0.4) * 5.0));
    }
  }

  /** Each trending change lies in [-2, 3] and within 0.005 of the drawn
      (draw - 0.4) * 5; it is the draw rounded by `ToFixed2`. */
  lemma TrendingChange(rand: nat -> real, k: nat)
    requires IsRandom(rand) && k < 8
    ensures var c := GetTrendingStocks(rand)[k].change;
      && -2.0 <= c <= 3.0
      && (rand(k) - 0.4) * 5.0 - 0.005 <= c <= (rand(k) - 0.4) * 5.0 + 0.005
  {
    var u := (rand(k) - 0.4) * 5.0;
    TrendingChangeBounds(u);
    assert GetTrendingStocks(rand)[k].change == ToFixed2(u);
  }

  /** A string without lower-case letters is its own upper case. */
  lemma UpperCaseFixed(s: string)
    requires forall i :: 0 <= i < |s| ==> 'A' <= s[i] <= 'Z'
    ensures ToUpper(s) == s
  {
  }

  const NewsHeadlines: seq<(string, Sentiment)> := [
    ("Company Reports Strong Q4 Earnings Beat", Positive),
    ("New Product Launch Exceeds Expectations", Positive),
    ("Stock Faces Regulatory Scrutiny", Negative),
    ("Analyst Upgrades Price Target", Positive),
    ("Market Volatility Impacts Trading", Neutral),
    ("CEO Announces Strategic Partnership", Positive),
    ("Supply Chain Concerns Emerge", Negative),
    ("Record Revenue Growth Reported", Positive)
  ]

  const NewsSources: seq<string> := ["Reuters", "Bloomberg", "CNBC", "Financial Times"]

  const LoremSummary: string :=
    "Lorem ipsum dolor sit amet, consectetur adipiscing elit. Sed do eiusmod tempor incididunt ut labore et dolore magna aliqua."

  function SourceIndex(draw: real): (k: nat)
    requires 0.0 <= draw < 1.0
    ensures k < 4
  {
    ScaledDraw(draw, 4.0);
    (draw * 4.0).Floor
  }

  /** `getStockNews`: eight items, one per canned headline, prefixed with
      "<symbol>: " when a symbol is given, one hour apart going back from now. */
  function GetStockNews(symbol: Option<string>, now: int, rand: nat -> real): (r: seq<StockNews>)
    requires IsRandom(rand)
  {
    seq(|NewsHeadlines|, idx requires 0 <= idx < |NewsHeadlines| =>
      StockNews(
        "news-" + NatToString(idx),
        if Truthy(symbol) then symbol.value + ": " + NewsHeadlines[idx].0 else NewsHeadlines[idx].0,
        LoremSummary,
        NewsSources[SourceIndex(rand(idx))],
        "#",
        now - idx * 3600000,
        None,
        Some(NewsHeadlines[idx].1)))
  }

  /** Eight items with distinct ids news-0 .. news-7, newest first, one hour
      apart, the headline prefixed exactly when a symbol is given. */
  lemma StockNewsShape(symbol: Option<string>, now: int, rand: nat -> real)
    requires IsRandom(rand)
    ensures var r := GetStockNews(symbol, now, rand);
      && |r| == 8
      && (forall k :: 0 <= k < 8 ==> r[k].id == "news-" + NatToString(k) && r[k].datetime == now - k * 3600000)
      && (forall j, k :: 0 <= j < k < 8 ==> r[j].id != r[k].id && r[j].datetime > r[k].datetime)
      && (forall k :: 0 <= k < 8 ==>
            r[k].headline == if Truthy(symbol) then symbol.value + ": " + NewsHeadlines[k].0 else NewsHeadlines[k].0)
  {
    var r := GetStockNews(symbol, now, rand);
    forall j, k | 0 <= j < k < 8
      ensures r[j].id != r[k].id
    {
      if r[j].id == r[k].id {
        assert r[j].id[5..] == NatToString(j);
        assert r[k].id[5..] == NatToString(k);
        NatToStringInjective(j, k);
      }
    }
  }
}
