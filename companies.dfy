/** The fifteen-ticker company table that lib/services/stockApi.ts (as its
    mock stock list and its name table) and lib/services/realStockApi.ts
    (as its name table) each spell out with the same entries. */
module Companies {
  import opened Wrappers
  import opened Types

  const KnownStocks: seq<SymbolName> := [
    SymbolName("AAPL", "Apple Inc."),
    SymbolName("MSFT", "Microsoft Corporation"),
    SymbolName("GOOGL", "Alphabet Inc."),
    SymbolName("AMZN", "Amazon.com Inc."),
    SymbolName("TSLA", "Tesla Inc."),
    SymbolName("NVDA", "NVIDIA Corporation"),
    SymbolName("META", "Meta Platforms Inc."),
    SymbolName("NFLX", "Netflix Inc."),
    SymbolName("JPM", "JPMorgan Chase & Co."),
    SymbolName("V", "Visa Inc."),
    SymbolName("WMT", "Walmart Inc."),
    SymbolName("DIS", "The Walt Disney Company"),
    SymbolName("BA", "Boeing Company"),
    SymbolName("GE", "General Electric"),
    SymbolName("F", "Ford Motor Company")
  ]

  /** `names[symbol]`: the name recorded for exactly this key, if any. */
  function LookupName(symbol: string): (r: Option<string>)
    ensures r.Some? <==> exists i :: 0 <= i < |KnownStocks| && KnownStocks[i].symbol == symbol
    ensures r.Some? ==> SymbolName(symbol, r.value) in KnownStocks && r.value != ""
  {
    LookupIn(KnownStocks, symbol)
  }

  function LookupIn(table: seq<SymbolName>, symbol: string): (r: Option<string>)
    requires forall i :: 0 <= i < |table| ==> table[i].name != ""
    ensures r.Some? <==> exists i :: 0 <= i < |table| && table[i].symbol == symbol
    ensures r.Some? ==> SymbolName(symbol, r.value) in table && r.value != ""
  {
    if |table| == 0 then None
    else if table[0].symbol == symbol then Some(table[0].name)
    else
      var r := LookupIn(table[1..], symbol);
      assert forall i :: 1 <= i < |table| ==> table[i] == table[1..][i - 1];
      r
  }
}
