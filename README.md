# Stock dashboard core, modelled in Dafny

This project models the logic core of a stock-market dashboard written in
TypeScript, and proves properties of that model. The core has five parts:

- **Technical indicators** (`lib/utils/calculations.ts`, module `Calculations`).
  The module computes the simple moving average, the exponential moving average
  (seeded with an SMA), RSI over plain window means, MACD (12/26/9) and
  Bollinger bands (population variance). It also has the aggregate that runs
  all of them on a bar series, and the percent change.
  - Prices are `real`.
  - A JavaScript `NaN` or array hole is `None` in a `seq<Option<real>>`.
  - `Math.sqrt` is a parameter `sqrt: real -> real`. Properties about the
    bands assume `IsSqrt(sqrt)`, meaning non-negative and squaring back.
  - The SMA, EMA, RSI and Bollinger methods keep the source's loops. Each is
    proved equal to a specification function, and the properties are proved
    about that function.
- **Store** (`lib/stores/useStockStore.ts`, module `StockStore`). The class
  `Store` holds the persisted dashboard state:
  - the selected stock;
  - the watchlist and the portfolio;
  - the price alerts;
  - the chart settings;
  - the comparison symbols, at most 5;
  - the theme;
  - the notifications, at most 50.

  Every action is a method that reassigns one or more fields. Its contract
  gives the whole new state as a pure function of the old one, and says the
  store invariant `Valid()` is preserved. The clock, random ids and the
  system dark-mode preference are parameters.
- **Notification post-processing** (`lib/services/newsNotificationService.ts`,
  module `NewsNotificationService`). This covers:
  - text normalisation and word-overlap title similarity;
  - news duplicate detection;
  - order-keeping deduplication with in-place replacement (a method with the
    source's nested search loop);
  - title truncation;
  - the price, volume and 52-week alert rules;
  - combining and sorting the notifications newest first.

  The quote fetch and the news fetch are parameters:
  `quoteOf: string -> StockQuote` and `newsOf: Option<string> -> seq<StockNews>`.
  For `newsOf`, `None` means market news.
- **Live data adapters** (`lib/services/realStockApi.ts`, module
  `RealStockApi`). These are the pure parts:
  - keyword sentiment;
  - the time-frame to range and interval tables;
  - the company-name fallback;
  - Finnhub news reshaping;
  - response validation and bar mapping for quotes and history.

  Response bodies are inputs.
- **Mock data service** (`lib/services/stockApi.ts`, module `StockApi`). This
  covers:
  - the search filter;
  - the day-count table and the company-name fallback;
  - the mock history generator (a method with the source's countdown loop);
  - the trending list and the mock news.

  `Math.random` is an oracle `rand: nat -> real` with values in `[0, 1)`
  (`IsRandom`), and `Date.now()` is the parameter `now`.

The supporting modules are:

- `Wrappers`: `Option` and `Result`.
- `Types`: the records of `types/stock.ts` and the notification record of the
  store.
- `Seqs`: filter, take, distinct and other sequence helpers.
- `Text`: JavaScript truthiness of optional strings, ASCII case mapping,
  substring search and decimal rendering.
- `Companies`: the shared table of the 15 known tickers.

Where the documentation of the system and its code differ, the model follows
the code:

- `calculateEMA` with fewer points than the period returns `period` entries.
  The last of them is the sum divided by the period.
- `calculateRSI([])` returns one `NaN`.
- `calculateMACD` on fewer than 12 points returns 12 entries, because its
  length is that of the 12-period EMA.
- The store's news duplicate check takes the similarity of
  `(existing, incoming)` titles. `areTitlesSimilar` is not symmetric: it
  counts matches from the first title's words. The service calls
  `areNewsDuplicates(incoming, existing)`. Each call site is modelled with its
  own argument order.

The store's `normalizeText` and `areTitlesSimilar`
(lib/stores/useStockStore.ts:183-208) have the same text as the service's
functions, so the store reuses `NewsNotificationService.NormalizeText` and
`NewsNotificationService.AreTitlesSimilar`.

## Model

| member | source | states |
|---|---|---|
| Calculations.CalculateSMA | lib/utils/calculations.ts:4-15 | The result has the input's length. Entries before `period-1` are unset, and entry i ≥ period-1 is the mean of the `period` values ending at i. The result equals the specification `Sma`. |
| Calculations.SumByRunningTotals | lib/utils/calculations.ts:11-12 | A sum built by running totals, as in the SMA loop, equals the sum of the window. |
| Calculations.SmaExample | lib/utils/calculations.ts:4-15 | Closes 10..20 with period 5 give four unset entries, then 12, 13, …, 18. |
| Calculations.CalculateEMA | lib/utils/calculations.ts:18-38 | The loop, which writes index `period-1` and then reads back `ema[i-1]`, computes exactly the specification `Ema`. |
| Calculations.EmaShape | lib/utils/calculations.ts:18-38 | For n ≥ period the EMA has length n. Entries before `period-1` are unset, and entry `period-1` is the mean of the first `period` values. |
| Calculations.EmaRecurrence | lib/utils/calculations.ts:32-35 | From index `period` on, `ema[i] = (data[i] - ema[i-1]) * 2/(period+1) + ema[i-1]`. |
| Calculations.EmaLength | lib/utils/calculations.ts:24-30 | The length is n when n ≥ period, and `period` when n < period, as the code writes. |
| Calculations.Differences | lib/utils/calculations.ts:45-50 | The loop fills the gains and the losses of consecutive closes. Both are non-negative, with one entry per difference. |
| Calculations.CalculateRSI | lib/utils/calculations.ts:41-72 | The loop computes exactly the specification `Rsi`. |
| Calculations.RsiShape | lib/utils/calculations.ts:41-72 | The length is n, or 1 for empty input. The first `period` entries are unset, and every later entry is defined. |
| Calculations.RsiFromRange | lib/utils/calculations.ts:60-68 | A point lies in [0, 100]. It is exactly 100 iff the average loss is 0, and 0 iff there is no gain and some loss. |
| Calculations.RsiSeriesInRange | lib/utils/calculations.ts:41-72 | Every defined RSI value lies in [0, 100]. |
| Calculations.RsiExample | lib/utils/calculations.ts:41-72 | Closes 1, 2, 1, 3 with period 3 give three unset entries, then 75: gains 1, 0, 2 and losses 0, 1, 0. |
| Calculations.Gains | lib/utils/calculations.ts:45-50 | There is one non-negative gain per consecutive pair. |
| Calculations.Losses | lib/utils/calculations.ts:45-50 | There is one non-negative loss per consecutive pair. |
| Calculations.AvgGain | lib/utils/calculations.ts:60 | The window's mean gain is non-negative. |
| Calculations.AvgLoss | lib/utils/calculations.ts:61 | The window's mean loss is non-negative. |
| Calculations.MacdShape | lib/utils/calculations.ts:75-90 | `macd[i] = ema12[i] - ema26[i]`. The signal is EMA(9) of the defined macd values, left-padded with unset entries to macd's length, and `histogram = macd - signal` pointwise. |
| Calculations.MacdWarmup | lib/utils/calculations.ts:75-90 | For n ≥ 34 the signal is unset below index 33 and defined from index 33 on. |
| Calculations.Variance | lib/utils/calculations.ts:109-111 | The population variance of a window is non-negative. |
| Calculations.BandsAt | lib/utils/calculations.ts:109-115 | At a defined index, both bands are defined. Each lies `stdDev * sqrt(variance)` away from the window mean. |
| Calculations.CalculateBollingerBands | lib/utils/calculations.ts:93-119 | The loop computes exactly the specification `BollingerBands`. |
| Calculations.BollingerShape | lib/utils/calculations.ts:93-119 | The three bands have one entry per close. All three are unset exactly before index `period − 1`. From there the middle is the window mean and the bands are that mean ± stdDev standard deviations. |
| Calculations.BollingerProperties | lib/utils/calculations.ts:93-119 | At a full window, upper − middle equals middle − lower. The half-width squared is stdDev² times the population variance. `lower ≤ middle ≤ upper` when stdDev ≥ 0. |
| Calculations.Closes | lib/utils/calculations.ts:123 | The close series has one entry per bar, the bar's close. |
| Calculations.IndicatorsConsistent | lib/utils/calculations.ts:122-140 | The aggregate uses RSI 14, Bollinger 20/2, EMA 12/26/50 and SMA 20/50/200 on the closes. The Bollinger middle equals `sma20`, and `macd` equals `ema12 - ema26` pointwise. |
| Calculations.CalculatePercentChange | lib/utils/calculations.ts:157-159 | The result is defined iff `previous ≠ 0`, and then `previous * (1 + r/100) = current`. |
| StockStore.Store.constructor | lib/stores/useStockStore.ts:68-179 | The initial state is empty lists, no selection, the default chart settings and the Dark theme. The store invariant holds. |
| StockStore.Store.SetSelectedStock | lib/stores/useStockStore.ts:73-74 | The symbol and quote are selected, and nothing else changes. |
| StockStore.Store.AddToWatchlist | lib/stores/useStockStore.ts:78-81 | The watchlist becomes `Upsert`: entries with the same symbol are dropped and the item is appended. Nothing else changes, and symbols stay unique. |
| StockStore.Store.RemoveFromWatchlist | lib/stores/useStockStore.ts:82-85 | Exactly the entries with the symbol are dropped, and nothing else changes. |
| StockStore.Store.AddToPortfolio | lib/stores/useStockStore.ts:89-92 | The portfolio becomes `Upsert` of the holding by symbol, and nothing else changes. |
| StockStore.Store.RemoveFromPortfolio | lib/stores/useStockStore.ts:93-96 | Exactly the holdings with the symbol are dropped, and nothing else changes. |
| StockStore.Store.UpdatePortfolioHolding | lib/stores/useStockStore.ts:97-102 | Only the holdings with the symbol are patched, the length is kept, and nothing else changes. |
| StockStore.Store.AddAlert | lib/stores/useStockStore.ts:106-117 | One alert is appended, and nothing else changes. |
| StockStore.Store.RemoveAlert | lib/stores/useStockStore.ts:118-121 | Exactly the alerts with the id are dropped, and nothing else changes. |
| StockStore.Store.UpdateAlert | lib/stores/useStockStore.ts:122-127 | Only the alerts with the id are patched, and nothing else changes. |
| StockStore.Store.UpdateChartSettings | lib/stores/useStockStore.ts:147-150 | The settings become the shallow merge with the patch, and nothing else changes. |
| StockStore.Store.AddComparisonSymbol | lib/stores/useStockStore.ts:154-157 | The comparison list becomes `WithComparisonSymbol`, and the invariant (distinct, at most 5) is kept. |
| StockStore.Store.RemoveComparisonSymbol | lib/stores/useStockStore.ts:158-161 | The symbol is removed from the comparisons, and nothing else changes. |
| StockStore.Store.ClearComparisonSymbols | lib/stores/useStockStore.ts:162 | The comparisons become empty, and nothing else changes. |
| StockStore.Store.SetTheme | lib/stores/useStockStore.ts:166 | The theme is set, and nothing else changes. |
| StockStore.Store.ToggleTheme | lib/stores/useStockStore.ts:167-176 | The theme becomes `ToggledTheme(theme, prefersDark)`, and nothing else changes. |
| StockStore.Store.AddNotification | lib/stores/useStockStore.ts:180-268 | The notifications become `WithNotification`, and the cap of 50 is kept. |
| StockStore.Store.MarkNotificationAsRead | lib/stores/useStockStore.ts:269-274 | Only the notification with the id is marked read. |
| StockStore.Store.MarkAllNotificationsAsRead | lib/stores/useStockStore.ts:275-278 | Every notification is marked read, and nothing else changes. |
| StockStore.Store.DeleteNotification | lib/stores/useStockStore.ts:279-282 | Exactly the notifications with the id are dropped. |
| StockStore.Store.ClearAllNotifications | lib/stores/useStockStore.ts:283 | The notifications become empty, and nothing else changes. |
| StockStore.Store.ClearCache | lib/stores/useStockStore.ts:286-292 | Notifications and comparisons are emptied and the selection is cleared. Watchlist, portfolio, alerts, chart settings and theme are untouched. |
| StockStore.Upsert | lib/stores/useStockStore.ts:78-81 | The new entry comes last. Every other kept entry comes from the old list with a different key, and every old entry with a different key is kept. |
| StockStore.UpsertOrder | lib/stores/useStockStore.ts:78-81 | Upserting is removing the entries with the new key and appending the new entry, so the kept entries stay in order. |
| StockStore.UpsertKeepsUniqueKeys | lib/stores/useStockStore.ts:78-81 | Upserting keeps the keys unique. |
| StockStore.FilterKeepsUniqueKeys | lib/stores/useStockStore.ts:82-85 | Filtering keeps the keys unique. |
| StockStore.RemoveKey | lib/stores/useStockStore.ts:82-85 | The result holds exactly the old entries whose key differs. |
| StockStore.RemoveKeyOrder | lib/stores/useStockStore.ts:82-85 | Removal distributes over concatenation, drops a single entry iff it has the key, and leaves a list without the key unchanged. So exactly the matching entries go and the rest keep their order and multiplicity. |
| StockStore.RemoveKeepsUniqueKeys | lib/stores/useStockStore.ts:82-85 | Removing by key keeps the keys unique. |
| StockStore.UpdateKey | lib/stores/useStockStore.ts:97-102 | The length is kept. Entry i is patched iff its key matches, and is otherwise unchanged. |
| StockStore.AppendAlert | lib/stores/useStockStore.ts:106-117 | The old alerts are a prefix. The one new alert has the given id, `triggered = false` and `createdAt = now`. |
| StockStore.MergeChartSettings | lib/stores/useStockStore.ts:147-150 | Each top-level key takes the patch's value when given, and keeps the old value otherwise. |
| StockStore.MergeChartSettingsProperties | lib/stores/useStockStore.ts:147-150 | The empty patch is the identity, and merging the same patch twice equals merging it once. |
| StockStore.WithComparisonSymbol | lib/stores/useStockStore.ts:154-157 | The result is duplicate-free and has at most 5 symbols. |
| StockStore.WithComparisonSymbolCases | lib/stores/useStockStore.ts:154-157 | A present symbol leaves the list unchanged. A new symbol is appended when there is room, and dropped when the list is full. |
| StockStore.WithoutComparisonSymbol | lib/stores/useStockStore.ts:158-161 | The symbol is absent afterwards. Every other symbol is kept, and nothing new appears. |
| StockStore.WithoutComparisonSymbolOrder | lib/stores/useStockStore.ts:158-161 | Removal distributes over concatenation, drops a single symbol iff it is the one removed, and leaves a list without it unchanged, so the others keep their order. |
| StockStore.ToggledTheme | lib/stores/useStockStore.ts:167-176 | The result is never Auto. Light and dark swap, and Auto moves to the opposite of the system preference. |
| StockStore.ToggledThemeTwice | lib/stores/useStockStore.ts:167-176 | Toggling twice restores a light or dark theme. From Auto it ends at the system preference. |
| StockStore.WithNotification | lib/stores/useStockStore.ts:211-267 | When a duplicate (news within 24 h, alert within 1 h, system with the same title) exists, the list is unchanged. Otherwise the notification is prepended and the list is cut to 50. |
| StockStore.WithNotificationProperties | lib/stores/useStockStore.ts:211-267 | The cap of 50 is kept. Adding a notification a second time changes nothing: always for a system notification, and for news (alerts) while its timestamp is under 24 hours (one hour) old. |
| StockStore.MarkAsRead | lib/stores/useStockStore.ts:269-274 | The length and ids are kept. Only entries with the id are marked read. |
| StockStore.MarkAllAsRead | lib/stores/useStockStore.ts:275-278 | Every entry is the old entry with `read` set. |
| StockStore.MarkAllAsReadIdempotent | lib/stores/useStockStore.ts:275-278 | Marking all as read is idempotent, and afterwards marking any one as read changes nothing. |
| NewsNotificationService.NormalizeTextIsNormal | lib/services/newsNotificationService.ts:196-202 | Normalised text has no upper-case letter, no punctuation, no leading, trailing or double space, and no other whitespace. |
| NewsNotificationService.NormalizeTextIdempotent | lib/services/newsNotificationService.ts:196-202 | Normalising twice equals normalising once. |
| NewsNotificationService.NormalizeTextOfNormal | lib/services/newsNotificationService.ts:196-202 | Text that is already normal is left unchanged. |
| NewsNotificationService.NormalizeTextIgnoresCase | lib/services/newsNotificationService.ts:196-202 | Upper-casing the input does not change the normal form. |
| NewsNotificationService.CollapseSpacesNormal | lib/services/newsNotificationService.ts:199-200 | After collapsing, runs of whitespace are single spaces. |
| NewsNotificationService.TrimNormal | lib/services/newsNotificationService.ts:201 | Trimming a collapsed text leaves no space at either end. |
| NewsNotificationService.JoinSplit | lib/services/newsNotificationService.ts:211-213 | Joining the split words of normal text with single spaces gives the text back. |
| NewsNotificationService.WordsOverlapRule | lib/services/newsNotificationService.ts:215-230 | The word rule holds iff the matches reach 4/5 of the first word list or of the second. |
| NewsNotificationService.WordsOverlapExtremes | lib/services/newsNotificationService.ts:215-230 | An empty word list never overlaps. A non-empty list whose words all occur in a non-empty other list overlaps it. |
| NewsNotificationService.AreTitlesSimilarReflexive | lib/services/newsNotificationService.ts:207-231 | Every title is similar to itself and to its upper-cased form. |
| NewsNotificationService.TruncateTitle | lib/services/newsNotificationService.ts:154-157 | A short title is unchanged. A long one becomes its first `maxLength-3` characters plus "...", so for maxLength ≥ 3 it is exactly maxLength long. |
| NewsNotificationService.ConvertNewsToNotifications | lib/services/newsNotificationService.ts:138-149 | There is one unread news notification per item. Each carries the symbol, summary, time, url and source, and its title is the headline truncated to 60. |
| NewsNotificationService.AreNewsDuplicates | lib/services/newsNotificationService.ts:236-263 | Duplicates are always both news. |
| NewsNotificationService.AreNewsDuplicatesReflexive | lib/services/newsNotificationService.ts:236-263 | A notification duplicates itself iff it is news, and a news item duplicates its upper-cased-title copy. |
| NewsNotificationService.FirstClash | lib/services/newsNotificationService.ts:273-304 | The result is the first kept index the incoming notification clashes with, or -1 when there is none. |
| NewsNotificationService.DeduplicateNotifications | lib/services/newsNotificationService.ts:268-313 | The nested loop, with in-place replacement, computes exactly `Dedup`. |
| NewsNotificationService.DedupBounds | lib/services/newsNotificationService.ts:268-313 | Deduplication never lengthens the list, and every output element comes from the input. |
| NewsNotificationService.DedupNonNewsUnique | lib/services/newsNotificationService.ts:291-304 | After deduplication no two alert entries share (type, symbol, title), and no two system entries share a title. |
| NewsNotificationService.DedupOrder | lib/services/newsNotificationService.ts:268-313 | Each kept slot comes from a strictly increasing input position. The slot holds that input, or a later symbol-bearing news duplicate that replaced a symbol-less one. |
| NewsNotificationService.DedupWithoutClashes | lib/services/newsNotificationService.ts:268-313 | A list in which no later item clashes with an earlier one is returned unchanged. |
| NewsNotificationService.AlertsFor | lib/services/newsNotificationService.ts:51-115 | There are at most three alerts per stock, each unread, for the stock's symbol, at time `now`. |
| NewsNotificationService.MoveRuleFires | lib/services/newsNotificationService.ts:55-78 | The surge or drop alert is emitted iff abs(changePercent) > 3. |
| NewsNotificationService.VolumeRuleFires | lib/services/newsNotificationService.ts:81-94 | The volume alert is emitted iff volume > 1.5 · avgVolume. |
| NewsNotificationService.NearHighRuleFires | lib/services/newsNotificationService.ts:97-104 | The near-high alert is emitted iff price ≥ 0.98 · high52Week. |
| NewsNotificationService.NearLowRuleFires | lib/services/newsNotificationService.ts:105-113 | The near-low alert is emitted iff the near-high test fails and price ≤ 1.02 · low52Week. |
| NewsNotificationService.RuleTitleInjective | lib/services/newsNotificationService.ts:72-110 | Different rules give different alert titles for a stock. |
| NewsNotificationService.PriceAlertsBounds | lib/services/newsNotificationService.ts:47-123 | There are at most 3 alerts per watched stock, each with the symbol of a watched stock. |
| NewsNotificationService.PushAlerts | lib/services/newsNotificationService.ts:53-115 | One round of the watchlist loop appends exactly that entry's alerts, in rule order. |
| NewsNotificationService.CheckPriceAlerts | lib/services/newsNotificationService.ts:47-123 | The loop checks only the first 3 watchlist entries, equals `PriceAlerts` of them, and emits at most 9 alerts. |
| NewsNotificationService.FetchMarketNews | lib/services/newsNotificationService.ts:9-20 | There is one news notification per market item, without a symbol. |
| NewsNotificationService.StockNewsBounds | lib/services/newsNotificationService.ts:25-42 | At most 2 items are taken per symbol, each a news notification for that symbol. |
| NewsNotificationService.FetchStockNews | lib/services/newsNotificationService.ts:25-42 | The loop uses the first 5 symbols only, equals `StockNewsFor` of them, and yields at most 10 items. |
| NewsNotificationService.InsertNewestFirst | lib/services/newsNotificationService.ts:339 | Insertion keeps the multiset and adds the item. |
| NewsNotificationService.InsertKeepsSorted | lib/services/newsNotificationService.ts:339 | Inserting into a newest-first list keeps it newest first. |
| NewsNotificationService.SortNewestFirst | lib/services/newsNotificationService.ts:339 | The result is sorted newest first and is a permutation of the input. |
| NewsNotificationService.FetchAllNotifications | lib/services/newsNotificationService.ts:318-344 | The result is the newest-first sort of the deduplicated alerts, stock news and market news. It is sorted, has at most 9 + 10 + |market news| entries, and every entry comes from the combined list. |
| RealStockApi.NumOr | lib/services/realStockApi.ts:137-143 | A truthy number is kept, and 0 or missing gives the fallback. |
| RealStockApi.KeywordCount | lib/services/realStockApi.ts:335-336 | Each keyword counts at most once. |
| RealStockApi.AnalyzeSentimentClasses | lib/services/realStockApi.ts:331-343 | The result is positive iff more positive than negative keywords occur in the lower-cased text, negative for the reverse, and neutral on a tie. |
| RealStockApi.AnalyzeSentimentIgnoresCase | lib/services/realStockApi.ts:331-343 | Upper-casing the text does not change the sentiment. |
| RealStockApi.NoKeywordsNeutral | lib/services/realStockApi.ts:331-343 | Text without any keyword is neutral. |
| RealStockApi.YahooRangeInjective | lib/services/realStockApi.ts:348-360 | The range table gives a distinct string for each of the 8 time frames. |
| RealStockApi.YahooIntervalClasses | lib/services/realStockApi.ts:365-377 | Intraday intervals are used iff the frame spans at most 5 days, daily iff 30-365 days, and weekly or monthly beyond that. |
| RealStockApi.GetCompanyName | lib/services/realStockApi.ts:382-401 | A known ticker, in any case, gives its name, and otherwise the upper-cased symbol. |
| RealStockApi.GetCompanyNameProperties | lib/services/realStockApi.ts:382-401 | The name is case-insensitive, agrees with the mock service's table on known tickers, and lacks only its " Company" suffix otherwise. |
| RealStockApi.FormatFinnhubNews | lib/services/realStockApi.ts:315-326 | There are at most 8 items, each formatted from the item at its index. |
| RealStockApi.FormatFinnhubNewsFields | lib/services/realStockApi.ts:315-326 | The headline and image are kept. Summary falls back to the headline, source to "Financial News" and url to "#". A truthy datetime becomes `seconds · 1000`, a falsy one `now − index · 3600000`. The sentiment is the classifier's verdict on headline + " " + summary. |
| RealStockApi.FormatFinnhubNewsIdsDistinct | lib/services/realStockApi.ts:317 | Two items without an id, at different positions, get different ids. |
| RealStockApi.NewsIdInjective | lib/services/realStockApi.ts:317 | For items without an id, the generated id determines the position. |
| RealStockApi.GetStockNews | lib/services/realStockApi.ts:176-187 | A missing body gives no news, and otherwise the formatted news. |
| RealStockApi.TruthyValues | lib/services/realStockApi.ts:73-74 | Exactly the truthy values are kept. |
| RealStockApi.MaxOf | lib/services/realStockApi.ts:73 | The result is an element at least as large as all others. |
| RealStockApi.MinOf | lib/services/realStockApi.ts:74 | The result is an element no larger than all others. |
| RealStockApi.GetQuoteRejects | lib/services/realStockApi.ts:31-75 | An empty result, a missing meta or quote, an empty close array, or a non-numeric price or previous close gives its error. Past those checks, an absent volume or open column (or high/low column when the meta lacks the day high/low) fails as the property read does. A zero previous close fails. Anything else gives a quote at the current price. |
| RealStockApi.GetQuoteAccepts | lib/services/realStockApi.ts:31-75 | A successful quote comes only from a complete response, with numeric prices, a nonzero previous close and the columns it reads. It is the quote built from them. |
| RealStockApi.BuildQuoteProperties | lib/services/realStockApi.ts:54-75 | It fails exactly for an absent read column or a zero previous close. Otherwise: symbol and table name, change = price − previous close, the matching percent, the first truthy open or the price. The day high/low is the meta's, else the largest/smallest truthy column value, else ∓Infinity. |
| RealStockApi.MaxTruthyMeaning | lib/services/realStockApi.ts:73 | `Math.max(...xs.filter(Boolean))` is −Infinity iff no entry is truthy. Otherwise it is a truthy entry bounding all truthy entries. |
| RealStockApi.MinTruthyMeaning | lib/services/realStockApi.ts:74 | `Math.min(...xs.filter(Boolean))` is +Infinity iff no entry is truthy. Otherwise it is a truthy entry bounded by all truthy entries. |
| RealStockApi.PercentChangeMeaning | lib/services/realStockApi.ts:54-55 | `percent · base = change · 100`, with the sign of the change for a positive base. |
| RealStockApi.HistoricalDataShape | lib/services/realStockApi.ts:107-171 | An empty body, or a result without timestamps or columns, is rejected, and so is one missing any of the five columns. Otherwise there is one bar per timestamp, at timestamp · 1000. Open, high, low, close and volume are each the column's entry when truthy, else 0. |
| RealStockApi.HistoricalDataOrdered | lib/services/realStockApi.ts:136-144 | Increasing timestamps give bars in increasing time order. |
| StockApi.SearchSound | lib/services/stockApi.ts:86-93 | There are at most 10 results, each matching the query case-insensitively. When at most 10 match, all of them are returned. |
| StockApi.SearchOrder | lib/services/stockApi.ts:86-93 | Results keep the list order: the filter of a prefix is a prefix of the filter. |
| StockApi.SearchEmptyQuery | lib/services/stockApi.ts:86-93 | The empty query returns the first 10 stocks. |
| StockApi.SearchIgnoresCase | lib/services/stockApi.ts:86-93 | Upper-casing the query does not change the result. |
| StockApi.GetCompanyName | lib/services/stockApi.ts:174-193 | A known ticker gives its name, and otherwise "SYMBOL Company". |
| StockApi.GetCompanyNameIgnoresCase | lib/services/stockApi.ts:174-193 | The name does not depend on the symbol's case. |
| StockApi.BasePricePositive | lib/services/stockApi.ts:153-172 | The base price is positive, and in [100, 300) for unknown tickers. |
| StockApi.TimeFrameDaysIncreasing | lib/services/stockApi.ts:215-227 | The day counts 1, 5, 30, 90, 180, 365, 1825 and 3650 increase with the frame. |
| StockApi.WalkBounds | lib/services/stockApi.ts:59-60 | A daily step moves the price by at least −1% and by less than +1%. |
| StockApi.MakeBar | lib/services/stockApi.ts:62-75 | Each bar keeps its timestamp and close. It is plausible: positive prices, low ≤ open and close ≤ high, and volume in [10M, 60M). |
| StockApi.WalkFromPrefix | lib/services/stockApi.ts:57-76 | A longer walk extends a shorter one. |
| StockApi.WalkFromStep | lib/services/stockApi.ts:59-60 | Each close is the previous close moved by one random step. |
| StockApi.WalkFromPositive | lib/services/stockApi.ts:54-60 | All closes stay positive. |
| StockApi.WalkFromSteady | lib/services/stockApi.ts:59-60 | Consecutive closes differ by less than 1%. |
| StockApi.GenerateBars | lib/services/stockApi.ts:57-76 | The countdown loop yields days + 1 plausible bars, oldest first and one day apart, ending at `now`, with closes given by the walk. |
| StockApi.GetHistoricalData | lib/services/stockApi.ts:46-83 | There are `getTimeFrameDays(tf) + 1` bars, one day apart and ending at `now`, starting from 90% of the base price. |
| StockApi.TrendingStocksShape | lib/services/stockApi.ts:96-103 | There are exactly the 8 listed symbols in order, each with its known name. |
| StockApi.TrendingChange | lib/services/stockApi.ts:101 | Each change, after rounding to two decimals, lies in [−2, 3], within 0.005 of `(draw − 0.4) · 5`. |
| StockApi.ToFixed2Meaning | lib/services/stockApi.ts:101 | `parseFloat(x.toFixed(2))` is a whole number of hundredths within 0.005 of x, with ties rounding away from zero: in `(x − 0.005, x + 0.005]` for x ≥ 0 and `[x − 0.005, x + 0.005)` for x < 0. Rounding is symmetric in the sign. |
| StockApi.ToFixed2Ties | lib/services/stockApi.ts:101 | The ties 0.125 and −0.125 round to 0.13 and −0.13. |
| StockApi.SourceIndex | lib/services/stockApi.ts:145 | The source draw picks one of the 4 sources. |
| StockApi.StockNewsShape | lib/services/stockApi.ts:129-150 | There are 8 items with distinct ids `news-0`..`news-7`. Headlines are prefixed "SYMBOL: " when a symbol is given, and times step back 3600000 ms per item. |
| Text.StringOr | lib/services/realStockApi.ts:320-322 | A truthy string is kept, and an empty or missing one gives the fallback. |
| Text.NatToStringRoundTrip | lib/services/realStockApi.ts:317 | The decimal rendering reads back to the number. |

## Left out

- Network access, `fetch`/`axios`, `Promise.all`, and the try/catch branches that turn network failures into empty results or thrown errors. Fetched data is an input, and the quote and news fetches are total functions.
- Message strings built with `toFixed`, `formatVolume`, `formatNumber` and `formatPercent`. These are float-to-string conversions. The model's alert messages are empty.
- Ill-typed response bodies. A JSON number field that is absent, null or not a number is `None`, so a truthy non-number falls back like a falsy value where the source would keep it and throw on its type check (lib/services/realStockApi.ts:50). A Finnhub `datetime` is whole seconds. The bodies are assumed well-typed.
- Price rounding with `toFixed(2)` in RealStockApi.GetQuote and in StockApi.MakeBar / StockApi.GenerateBars (lib/services/stockApi.ts:68-73). Prices are exact reals, and the bar bounds are of the unrounded values. Only the trending change (StockApi.GetTrendingStocks) is rounded, by `ToFixed2`.
- IEEE-754 behaviour. Arithmetic is exact over `real`, including the 0.8 similarity ratio.
- `Math.sqrt`, which is a parameter with only the properties a square root has.
- `createWelcomeNotification`, which depends on a random tip and a clock-based greeting.
- Zustand `persist`/`partialize` and local storage (lib/stores/useStockStore.ts:294-304).
- `Date.now()`, `Math.random()` ids and `window.matchMedia`. These are parameters: `now`, `id` and `prefersDark`.
- Unicode case mapping. Case mapping is ASCII only.
- The ISO `date` string of a bar, which needs `Date` formatting. Bars carry only the timestamp.
- The mock `getQuote` and `getMarketSectors`. They are random draws with no structure beyond their ranges.
- JavaScript `undefined` keys in a patch object. They are modelled as absent (`None`); the shallow spread in the source would copy an explicit `undefined` instead.
- Calculations.CalculatePercentChange: returns `None` when `previous` is 0, where JavaScript yields `Infinity` or `NaN`.
- RealStockApi.GetQuote: rejects a zero previous close with `NonFinite`, where JavaScript would return a quote with an `Infinity` or `NaN` percent change. An infinite day high or low is modelled (`Extended`).
- RealStockApi.FormatFinnhubNewsIdsDistinct: distinctness is stated only for items without an id. An item with id 3 at position 0 and an id-less item at position 3 get the same id.
- NewsNotificationService.TruncateTitle: lengths and slices count Unicode scalar values, where JavaScript counts UTF-16 code units. A title of one emoji and 59 letters has length 60 here and 61 in JavaScript.
- NewsNotificationService.AreNewsDuplicates: the 200-character message prefix counts Unicode scalar values, not UTF-16 code units, for the same reason.
- NewsNotificationService.SortNewestFirst: states sortedness and permutation. It does not state that equal timestamps keep their input order, although JavaScript's sort is stable.
- NewsNotificationService.RuleAlert: the alert message is left empty, because it is a `toFixed` formatted string.
