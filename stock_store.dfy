/** The client store of lib/stores/useStockStore.ts: the selected stock, the
    watchlist, the portfolio, price alerts, chart settings, comparison
    symbols, the theme and the notification list. Each action is a pure
    function from the old field values to the new one, and the class
    `Store` holds the fields and applies the actions in place.
    `Date.now()`, the random parts of generated ids and the system dark-mode
    preference are parameters. */
module StockStore {
  import opened Wrappers
  import opened Types
  import opened Seqs
  import opened Text
  import NewsNotificationService

  // ---------------------------------------------------------------------
  // Keyed lists: watchlist, portfolio, alerts and notifications

  /** No two entries share a key. */
  predicate UniqueKeys<T>(xs: seq<T>, key: T -> string)
  {
    forall i, j :: 0 <= i < j < |xs| ==> key(xs[i]) != key(xs[j])
  }

  /** `[...xs.filter(e => key(e) !== key(x)), x]`: the entry replaces any
      entry with its key and goes last. */
  function Upsert<T(==)>(xs: seq<T>, x: T, key: T -> string): (r: seq<T>)
    ensures |r| >= 1 && r[|r| - 1] == x
    ensures forall i :: 0 <= i < |r| - 1 ==> r[i] in xs && key(r[i]) != key(x)
    ensures forall i :: 0 <= i < |xs| && key(xs[i]) != key(x) ==> xs[i] in r
  {
    Filter(xs, e => key(e) != key(x)) + [x]
  }

  /** `xs.filter(e => key(e) !== k)`. */
  function RemoveKey<T(==)>(xs: seq<T>, k: string, key: T -> string): (r: seq<T>)
    ensures forall i :: 0 <= i < |r| ==> r[i] in xs && key(r[i]) != k
    ensures forall i :: 0 <= i < |xs| && key(xs[i]) != k ==> xs[i] in r
  {
    Filter(xs, e => key(e) != k)
  }

  /** `xs.map(e => key(e) === k ? f(e) : e)`. */
  function UpdateKey<T>(xs: seq<T>, k: string, key: T -> string, f: T -> T): (r: seq<T>)
    ensures |r| == |xs|
    ensures forall i :: 0 <= i < |xs| ==> r[i] == if key(xs[i]) == k then f(xs[i]) else xs[i]
  {
    seq(|xs|, i requires 0 <= i < |xs| => if key(xs[i]) == k then f(xs[i]) else xs[i])
  }

  /** Filtering keeps the relative order of the kept entries, so it keeps
      keys unique. */
  lemma {:induction false} FilterKeepsUniqueKeys<T>(xs: seq<T>, p: T -> bool, key: T -> string)
    requires UniqueKeys(xs, key)
    ensures UniqueKeys(Filter(xs, p), key)
  {
    if |xs| > 0 {
      FilterKeepsUniqueKeys(xs[1..], p, key);
      var rest := Filter(xs[1..], p);
      forall i | 0 <= i < |rest|
        ensures key(xs[0]) != key(rest[i])
      {
        var j :| 0 <= j < |xs[1..]| && xs[1..][j] == rest[i];
        assert xs[j + 1] == rest[i];
      }
    }
  }

  /** Upserting keeps keys unique and the new entry is the only one with
      its key. */
  lemma UpsertKeepsUniqueKeys<T>(xs: seq<T>, x: T, key: T -> string)
    requires UniqueKeys(xs, key)
    ensures UniqueKeys(Upsert(xs, x, key), key)
  {
    FilterKeepsUniqueKeys(xs, e => key(e) != key(x), key);
  }

  /** Removing keeps keys unique. */
  lemma RemoveKeepsUniqueKeys<T>(xs: seq<T>, k: string, key: T -> string)
    requires UniqueKeys(xs, key)
    ensures UniqueKeys(RemoveKey(xs, k, key), key)
  {
    FilterKeepsUniqueKeys(xs, e => key(e) != k, key);
  }

  /** Removal works entry by entry and keeps the rest in order: it
      distributes over concatenation, drops a single entry exactly when it
      has the key, and leaves a list without the key unchanged. */
  lemma RemoveKeyOrder<T>(xs: seq<T>, ys: seq<T>, x: T, k: string, key: T -> string)
    ensures RemoveKey(xs + ys, k, key) == RemoveKey(xs, k, key) + RemoveKey(ys, k, key)
    ensures RemoveKey([x], k, key) == if key(x) == k then [] else [x]
    ensures (forall i :: 0 <= i < |xs| ==> key(xs[i]) != k) ==> RemoveKey(xs, k, key) == xs
  {
    FilterAppend(xs, ys, e => key(e) != k);
    if forall i :: 0 <= i < |xs| ==> key(xs[i]) != k {
      FilterAll(xs, e => key(e) != k);
    }
  }

  /** Upserting is removing the key, then appending the new entry: the
      entries kept stay in their order. */
  lemma UpsertOrder<T>(xs: seq<T>, x: T, key: T -> string)
    ensures Upsert(xs, x, key) == RemoveKey(xs, key(x), key) + [x]
  {
    var k := key(x);
    FilterCongruent(xs, e => key(e) != key(x), e => key(e) != k);
  }

  function WatchSymbol(w: WatchlistItem): string { w.symbol }
  function HoldingSymbol(h: PortfolioHolding): string { h.symbol }
  function AlertId(a: Alert): string { a.id }
  function NotificationId(n: Notification): string { n.id }

  // ---------------------------------------------------------------------
  // Partial updates

  /** `Partial<PortfolioHolding>`: the keys given. */
  datatype HoldingPatch = HoldingPatch(
    symbol: Option<string>, name: Option<string>, shares: Option<real>, averagePrice: Option<real>,
    currentPrice: Option<real>, totalValue: Option<real>, gainLoss: Option<real>, gainLossPercent: Option<real>)

  function Or<T>(given: Option<T>, current: T): T
  {
    if given.Some? then given.value else current
  }

  /** `{ ...holding, ...updates }`. */
  function PatchHolding(h: PortfolioHolding, p: HoldingPatch): PortfolioHolding
  {
    PortfolioHolding(Or(p.symbol, h.symbol), Or(p.name, h.name), Or(p.shares, h.shares),
      Or(p.averagePrice, h.averagePrice), Or(p.currentPrice, h.currentPrice),
      Or(p.totalValue, h.totalValue), Or(p.gainLoss, h.gainLoss), Or(p.gainLossPercent, h.gainLossPercent))
  }

  /** `Partial<Alert>`: the keys given. */
  datatype AlertPatch = AlertPatch(
    id: Option<string>, symbol: Option<string>, kind: Option<AlertType>, condition: Option<AlertCondition>,
    value: Option<real>, triggered: Option<bool>, createdAt: Option<int>)

  /** `{ ...alert, ...updates }`. */
  function PatchAlert(a: Alert, p: AlertPatch): Alert
  {
    Alert(Or(p.id, a.id), Or(p.symbol, a.symbol), Or(p.kind, a.kind), Or(p.condition, a.condition),
      Or(p.value, a.value), Or(p.triggered, a.triggered), Or(p.createdAt, a.createdAt))
  }

  /** `Partial<ChartSettings>`: the top-level keys given; a nested object
      given replaces the old one whole. */
  datatype ChartSettingsPatch = ChartSettingsPatch(
    chartType: Option<ChartType>, showVolume: Option<bool>, showGrid: Option<bool>,
    indicators: Option<IndicatorFlags>, colors: Option<ChartColors>)

  /** `updateChartSettings`: `{ ...chartSettings, ...settings }`. */
  function MergeChartSettings(cs: ChartSettings, p: ChartSettingsPatch): (r: ChartSettings)
    ensures r.chartType == Or(p.chartType, cs.chartType) && r.showVolume == Or(p.showVolume, cs.showVolume)
    ensures r.showGrid == Or(p.showGrid, cs.showGrid)
    ensures r.indicators == Or(p.indicators, cs.indicators) && r.colors == Or(p.colors, cs.colors)
  {
    ChartSettings(Or(p.chartType, cs.chartType), Or(p.showVolume, cs.showVolume), Or(p.showGrid, cs.showGrid),
      Or(p.indicators, cs.indicators), Or(p.colors, cs.colors))
  }

  /** An empty patch changes nothing, and applying a patch twice is applying
      it once. */
  lemma MergeChartSettingsProperties(cs: ChartSettings, p: ChartSettingsPatch)
    ensures MergeChartSettings(cs, ChartSettingsPatch(None, None, None, None, None)) == cs
    ensures MergeChartSettings(MergeChartSettings(cs, p), p) == MergeChartSettings(cs, p)
  {
  }

  /** The chart settings a new store starts with. */
  const DefaultChartSettings := ChartSettings(Line, true, true,
    IndicatorFlags(false, false, false, false, false),
    ChartColors("#10b981", "#ef4444", "#ffffff"))

  // ---------------------------------------------------------------------
  // Alerts

  /** `Omit<Alert, 'id' | 'createdAt' | 'triggered'>`. */
  datatype AlertDraft = AlertDraft(symbol: string, kind: AlertType, condition: AlertCondition, value: real)

  /** `addAlert`: appends the alert with the generated id, created now and
      not triggered. */
  function AppendAlert(alerts: seq<Alert>, draft: AlertDraft, id: string, now: int): (r: seq<Alert>)
    ensures |r| == |alerts| + 1 && r[..|alerts|] == alerts
    ensures var a := r[|alerts|];
      && a.id == id && a.createdAt == now && !a.triggered
      && a.symbol == draft.symbol && a.kind == draft.kind && a.condition == draft.condition && a.value == draft.value
  {
    alerts + [Alert(id, draft.symbol, draft.kind, draft.condition, draft.value, false, now)]
  }

  // ---------------------------------------------------------------------
  // Comparison symbols

  /** How many symbols can be compared at once. */
  const MaxComparisons := 5

  /** `addComparisonSymbol`: `Array.from(new Set([...symbols, symbol])).slice(0, 5)`. */
  function WithComparisonSymbol(symbols: seq<string>, symbol: string): (r: seq<string>)
    ensures |r| <= MaxComparisons && NoDuplicates(r)
  {
    DistinctProperties(symbols + [symbol]);
    Take(Distinct(symbols + [symbol]), MaxComparisons)
  }

  /** On a duplicate-free list of at most five: a present symbol changes
      nothing, an absent one is appended when there is room and dropped when
      the list is full. */
  lemma WithComparisonSymbolCases(symbols: seq<string>, symbol: string)
    requires NoDuplicates(symbols) && |symbols| <= MaxComparisons
    ensures symbol in symbols ==> WithComparisonSymbol(symbols, symbol) == symbols
    ensures symbol !in symbols && |symbols| < MaxComparisons ==> WithComparisonSymbol(symbols, symbol) == symbols + [symbol]
    ensures symbol !in symbols && |symbols| == MaxComparisons ==> WithComparisonSymbol(symbols, symbol) == symbols
  {
    DistinctSnoc(symbols, symbol);
    if symbol !in symbols && |symbols| == MaxComparisons {
      assert (symbols + [symbol])[..MaxComparisons] == symbols;
    }
  }

  /** `removeComparisonSymbol`. */
  function WithoutComparisonSymbol(symbols: seq<string>, symbol: string): (r: seq<string>)
    ensures symbol !in r
    ensures forall i :: 0 <= i < |symbols| && symbols[i] != symbol ==> symbols[i] in r
    ensures forall i :: 0 <= i < |r| ==> r[i] in symbols
  {
    Filter(symbols, s => s != symbol)
  }

  /** Removing a comparison symbol keeps the others in order: it
      distributes over concatenation, drops a single symbol exactly when it
      is the one removed, and leaves a list without it unchanged. */
  lemma WithoutComparisonSymbolOrder(xs: seq<string>, ys: seq<string>, x: string, symbol: string)
    ensures WithoutComparisonSymbol(xs + ys, symbol) == WithoutComparisonSymbol(xs, symbol) + WithoutComparisonSymbol(ys, symbol)
    ensures WithoutComparisonSymbol([x], symbol) == if x == symbol then [] else [x]
    ensures symbol !in xs ==> WithoutComparisonSymbol(xs, symbol) == xs
  {
    FilterAppend(xs, ys, s => s != symbol);
    if symbol !in xs {
      FilterAll(xs, s => s != symbol);
    }
  }

  // ---------------------------------------------------------------------
  // Theme

  datatype Theme = Light | Dark | Auto

  /** `toggleTheme`: light and dark swap; from auto the theme becomes the
      opposite of the system preference. */
  function ToggledTheme(theme: Theme, prefersDark: bool): (r: Theme)
    ensures r != Auto
    ensures theme != Auto ==> r != theme
    ensures theme == Auto ==> (r == Dark <==> !prefersDark)
  {
    if theme == Auto then (if prefersDark then Light else Dark)
    else if theme == Light then Dark
    else Light
  }

  /** Toggling twice returns to light or dark, and from auto reaches the
      system preference. */
  lemma ToggledThemeTwice(theme: Theme, prefersDark: bool)
    ensures theme != Auto ==> ToggledTheme(ToggledTheme(theme, prefersDark), prefersDark) == theme
    ensures theme == Auto ==> ToggledTheme(ToggledTheme(theme, prefersDark), prefersDark) == (if prefersDark then Dark else Light)
  {
  }

  // ---------------------------------------------------------------------
  // Notifications

  /** How many notifications the store keeps. */
  const MaxNotifications := 50

  /** How long a news item, and a price or watchlist alert, blocks a
      duplicate, in milliseconds. */
  const NewsWindow := 24 * 60 * 60 * 1000
  const AlertWindow := 60 * 60 * 1000

  predicate IsAlertKind(kind: NotificationKind)
  {
    kind == PriceAlert || kind == Watchlist
  }

  /** The test of `addNotification` of an incoming notification against a
      stored one: news against news less than a day old that shares a URL,
      has a similar title or the same normalised message start; an alert
      against an alert of the same type and symbol less than an hour old; a
      system notification against one with the same title. */
  predicate IsDuplicateOf(existing: Notification, incoming: NotificationData, now: int)
  {
    var n := existing.data;
    if incoming.kind == News && n.kind == News then
      now - n.timestamp < NewsWindow && NewsNotificationService.AreNewsDuplicates(n, incoming)
    else if IsAlertKind(incoming.kind) && IsAlertKind(n.kind) then
      n.symbol == incoming.symbol && n.kind == incoming.kind && now - n.timestamp < AlertWindow
    else incoming.kind == System && n.kind == System && n.title == incoming.title
  }

  /** `addNotification`: a duplicate of a stored notification changes
      nothing; otherwise the notification goes first under the generated id
      and only the newest 50 are kept. */
  function WithNotification(notifications: seq<Notification>, incoming: NotificationData, id: string, now: int): (r: seq<Notification>)
    ensures (exists k :: 0 <= k < |notifications| && IsDuplicateOf(notifications[k], incoming, now)) ==> r == notifications
    ensures (forall k :: 0 <= k < |notifications| ==> !IsDuplicateOf(notifications[k], incoming, now)) ==>
      && |r| == (if |notifications| < MaxNotifications then |notifications| + 1 else MaxNotifications)
      && r[0] == Notification(id, incoming)
      && r[1..] == notifications[..|r| - 1]
  {
    if exists k :: 0 <= k < |notifications| && IsDuplicateOf(notifications[k], incoming, now) then notifications
    else
      TakePrepended(Notification(id, incoming), notifications, MaxNotifications);
      Take([Notification(id, incoming)] + notifications, MaxNotifications)
  }

  /** The first n entries of a list with x in front: x, then the first
      n - 1 entries of the list. */
  lemma TakePrepended<T>(x: T, xs: seq<T>, n: nat)
    requires n >= 1
    ensures var r := Take([x] + xs, n);
      && |r| == (if |xs| < n then |xs| + 1 else n)
      && r[0] == x
      && r[1..] == xs[..|r| - 1]
  {
    var r := Take([x] + xs, n);
    assert forall i :: 0 <= i < |r| - 1 ==> r[1..][i] == xs[i];
  }

  /** The notification list never grows past 50 once it is within that
      bound, and a notification just stored blocks the same one arriving
      again: always for a system notification, and while its timestamp is
      inside the 24-hour (news) or one-hour (alerts) window. */
  lemma WithNotificationProperties(notifications: seq<Notification>, incoming: NotificationData, id: string, id2: string, now: int)
    ensures |notifications| <= MaxNotifications ==> |WithNotification(notifications, incoming, id, now)| <= MaxNotifications
    ensures var once := WithNotification(notifications, incoming, id, now);
      (incoming.kind == News ==> now - incoming.timestamp < NewsWindow) &&
      (IsAlertKind(incoming.kind) ==> now - incoming.timestamp < AlertWindow) ==>
      WithNotification(once, incoming, id2, now) == once
  {
    var once := WithNotification(notifications, incoming, id, now);
    if (incoming.kind == News ==> now - incoming.timestamp < NewsWindow) &&
       (IsAlertKind(incoming.kind) ==> now - incoming.timestamp < AlertWindow) &&
       forall k :: 0 <= k < |notifications| ==> !IsDuplicateOf(notifications[k], incoming, now) {
      NewsNotificationService.AreNewsDuplicatesReflexive(incoming);
      assert IsDuplicateOf(once[0], incoming, now);
    }
  }

  /** `markNotificationAsRead`. */
  function MarkAsRead(notifications: seq<Notification>, id: string): (r: seq<Notification>)
    ensures |r| == |notifications|
    ensures forall i :: 0 <= i < |r| ==> r[i].id == notifications[i].id
    ensures forall i :: 0 <= i < |r| ==>
      r[i].data == if notifications[i].id == id then notifications[i].data.(read := true) else notifications[i].data
  {
    UpdateKey(notifications, id, NotificationId, (n: Notification) => Notification(n.id, n.data.(read := true)))
  }

  /** `markAllNotificationsAsRead`. */
  function MarkAllAsRead(notifications: seq<Notification>): (r: seq<Notification>)
    ensures |r| == |notifications|
    ensures forall i :: 0 <= i < |r| ==> r[i].data.read && r[i] == notifications[i].(data := notifications[i].data.(read := true))
  {
    seq(|notifications|, i requires 0 <= i < |notifications| =>
      notifications[i].(data := notifications[i].data.(read := true)))
  }

  /** Marking all read twice is marking them once; marking every id read
      one at a time, in any order, ends in the same place for lists whose
      ids are unique. */
  lemma MarkAllAsReadIdempotent(notifications: seq<Notification>)
    ensures MarkAllAsRead(MarkAllAsRead(notifications)) == MarkAllAsRead(notifications)
    ensures forall id :: MarkAsRead(MarkAllAsRead(notifications), id) == MarkAllAsRead(notifications)
  {
    var all := MarkAllAsRead(notifications);
    forall id: string
      ensures MarkAsRead(all, id) == all
    {
      assert forall i :: 0 <= i < |all| ==> all[i].data.(read := true) == all[i].data;
    }
  }

  // ---------------------------------------------------------------------
  // The store

  /** The values of every field of the store. */
  datatype StoreState = StoreState(
    selectedSymbol: Option<string>, selectedStock: Option<StockQuote>,
    watchlist: seq<WatchlistItem>, portfolio: seq<PortfolioHolding>, alerts: seq<Alert>,
    chartSettings: ChartSettings, comparisonSymbols: seq<string>, theme: Theme,
    notifications: seq<Notification>)

  class Store {
    var selectedSymbol: Option<string>
    var selectedStock: Option<StockQuote>
    var watchlist: seq<WatchlistItem>
    var portfolio: seq<PortfolioHolding>
    var alerts: seq<Alert>
    var chartSettings: ChartSettings
    var comparisonSymbols: seq<string>
    var theme: Theme
    var notifications: seq<Notification>

    function State(): StoreState
      reads this
    {
      StoreState(selectedSymbol, selectedStock, watchlist, portfolio, alerts,
        chartSettings, comparisonSymbols, theme, notifications)
    }

    /** The invariants every action keeps: unique watchlist symbols, at
        most five distinct comparison symbols, at most 50 notifications. */
    predicate Valid()
      reads this
    {
      && UniqueKeys(watchlist, WatchSymbol)
      && NoDuplicates(comparisonSymbols) && |comparisonSymbols| <= MaxComparisons
      && |notifications| <= MaxNotifications
    }

    /** A new store: nothing selected, empty lists, the default chart
        settings and the dark theme. */
    constructor()
      ensures State() == StoreState(None, None, [], [], [], DefaultChartSettings, [], Dark, [])
      ensures Valid()
    {
      selectedSymbol, selectedStock := None, None;
      watchlist, portfolio, alerts := [], [], [];
      chartSettings := DefaultChartSettings;
      comparisonSymbols := [];
      theme := Dark;
      notifications := [];
    }

    method SetSelectedStock(symbol: string, stock: StockQuote)
      modifies this
      ensures State() == old(State()).(selectedSymbol := Some(symbol), selectedStock := Some(stock))
      ensures old(Valid()) ==> Valid()
    {
      selectedSymbol, selectedStock := Some(symbol), Some(stock);
    }

    method AddToWatchlist(item: WatchlistItem)
      modifies this
      ensures State() == old(State()).(watchlist := Upsert(old(watchlist), item, WatchSymbol))
      ensures old(Valid()) ==> Valid()
    {
      if Valid() {
        UpsertKeepsUniqueKeys(watchlist, item, WatchSymbol);
      }
      watchlist := Upsert(watchlist, item, WatchSymbol);
    }

    method RemoveFromWatchlist(symbol: string)
      modifies this
      ensures State() == old(State()).(watchlist := RemoveKey(old(watchlist), symbol, WatchSymbol))
      ensures old(Valid()) ==> Valid()
    {
      if Valid() {
        RemoveKeepsUniqueKeys(watchlist, symbol, WatchSymbol);
      }
      watchlist := RemoveKey(watchlist, symbol, WatchSymbol);
    }

    method AddToPortfolio(holding: PortfolioHolding)
      modifies this
      ensures State() == old(State()).(portfolio := Upsert(old(portfolio), holding, HoldingSymbol))
      ensures old(Valid()) ==> Valid()
    {
      portfolio := Upsert(portfolio, holding, HoldingSymbol);
    }

    method RemoveFromPortfolio(symbol: string)
      modifies this
      ensures State() == old(State()).(portfolio := RemoveKey(old(portfolio), symbol, HoldingSymbol))
      ensures old(Valid()) ==> Valid()
    {
      portfolio := RemoveKey(portfolio, symbol, HoldingSymbol);
    }

    method UpdatePortfolioHolding(symbol: string, updates: HoldingPatch)
      modifies this
      ensures State() == old(State()).(portfolio := UpdateKey(old(portfolio), symbol, HoldingSymbol, h => PatchHolding(h, updates)))
      ensures old(Valid()) ==> Valid()
    {
      portfolio := UpdateKey(portfolio, symbol, HoldingSymbol, h => PatchHolding(h, updates));
    }

    method AddAlert(draft: AlertDraft, id: string, now: int)
      modifies this
      ensures State() == old(State()).(alerts := AppendAlert(old(alerts), draft, id, now))
      ensures old(Valid()) ==> Valid()
    {
      alerts := AppendAlert(alerts, draft, id, now);
    }

    method RemoveAlert(id: string)
      modifies this
      ensures State() == old(State()).(alerts := RemoveKey(old(alerts), id, AlertId))
      ensures old(Valid()) ==> Valid()
    {
      alerts := RemoveKey(alerts, id, AlertId);
    }

    method UpdateAlert(id: string, updates: AlertPatch)
      modifies this
      ensures State() == old(State()).(alerts := UpdateKey(old(alerts), id, AlertId, a => PatchAlert(a, updates)))
      ensures old(Valid()) ==> Valid()
    {
      alerts := UpdateKey(alerts, id, AlertId, a => PatchAlert(a, updates));
    }

    method UpdateChartSettings(settings: ChartSettingsPatch)
      modifies this
      ensures State() == old(State()).(chartSettings := MergeChartSettings(old(chartSettings), settings))
      ensures old(Valid()) ==> Valid()
    {
      chartSettings := MergeChartSettings(chartSettings, settings);
    }

    method AddComparisonSymbol(symbol: string)
      modifies this
      ensures State() == old(State()).(comparisonSymbols := WithComparisonSymbol(old(comparisonSymbols), symbol))
      ensures old(Valid()) ==> Valid()
    {
      comparisonSymbols := WithComparisonSymbol(comparisonSymbols, symbol);
    }

    method RemoveComparisonSymbol(symbol: string)
      modifies this
      ensures State() == old(State()).(comparisonSymbols := WithoutComparisonSymbol(old(comparisonSymbols), symbol))
      ensures old(Valid()) ==> Valid()
    {
      if Valid() {
        FilterKeepsUniqueKeys(comparisonSymbols, s => s != symbol, s => s);
        assert NoDuplicates(WithoutComparisonSymbol(comparisonSymbols, symbol)) by {
          var r := WithoutComparisonSymbol(comparisonSymbols, symbol);
          assert forall i, j :: 0 <= i < j < |r| ==> (s => s)(r[i]) != (s => s)(r[j]);
        }
      }
      comparisonSymbols := WithoutComparisonSymbol(comparisonSymbols, symbol);
    }

    method ClearComparisonSymbols()
      modifies this
      ensures State() == old(State()).(comparisonSymbols := [])
      ensures old(Valid()) ==> Valid()
    {
      comparisonSymbols := [];
    }

    method SetTheme(theme': Theme)
      modifies this
      ensures State() == old(State()).(theme := theme')
      ensures old(Valid()) ==> Valid()
    {
      theme := theme';
    }

    method ToggleTheme(prefersDark: bool)
      modifies this
      ensures State() == old(State()).(theme := ToggledTheme(old(theme), prefersDark))
      ensures old(Valid()) ==> Valid()
    {
      theme := ToggledTheme(theme, prefersDark);
    }

    method AddNotification(notification: NotificationData, id: string, now: int)
      modifies this
      ensures State() == old(State()).(notifications := WithNotification(old(notifications), notification, id, now))
      ensures old(Valid()) ==> Valid()
    {
      notifications := WithNotification(notifications, notification, id, now);
    }

    method MarkNotificationAsRead(id: string)
      modifies this
      ensures State() == old(State()).(notifications := MarkAsRead(old(notifications), id))
      ensures old(Valid()) ==> Valid()
    {
      notifications := MarkAsRead(notifications, id);
    }

    method MarkAllNotificationsAsRead()
      modifies this
      ensures State() == old(State()).(notifications := MarkAllAsRead(old(notifications)))
      ensures old(Valid()) ==> Valid()
    {
      notifications := MarkAllAsRead(notifications);
    }

    method DeleteNotification(id: string)
      modifies this
      ensures State() == old(State()).(notifications := RemoveKey(old(notifications), id, NotificationId))
      ensures old(Valid()) ==> Valid()
    {
      notifications := RemoveKey(notifications, id, NotificationId);
    }

    method ClearAllNotifications()
      modifies this
      ensures State() == old(State()).(notifications := [])
      ensures old(Valid()) ==> Valid()
    {
      notifications := [];
    }

    /** `clearCache`: drops the session data (notifications, comparison
        symbols, the selection) and keeps the watchlist, portfolio, alerts,
        chart settings and theme. */
    method ClearCache()
      modifies this
      ensures State() == old(State()).(notifications := [], selectedSymbol := None, selectedStock := None, comparisonSymbols := [])
      ensures old(Valid()) ==> Valid()
    {
      notifications := [];
      selectedSymbol, selectedStock := None, None;
      comparisonSymbols := [];
    }
  }
}
