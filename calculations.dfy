/** The technical-indicator engine of lib/utils/calculations.ts.

    A series entry is an `Option<real>`: `None` stands for the NaN sentinel
    and for a JavaScript array hole (both make arithmetic give NaN and are
    dropped by `filter(v => !isNaN(v))`). */
module Calculations {
  import opened Wrappers
  import opened Types

  type Point = Option<real>

  // ---------------------------------------------------------------------
  // Sums and windows

  /** `s.reduce((a, b) => a + b, 0)`: a left-to-right sum. */
  function Sum(s: seq<real>): real
  {
    if |s| == 0 then 0.0 else Sum(s[..|s| - 1]) + s[|s| - 1]
  }

  lemma SumAppend(s: seq<real>, x: real)
    ensures Sum(s + [x]) == Sum(s) + x
  {
    assert (s + [x])[..|s|] == s;
  }

  lemma {:induction false} SumNonNegative(s: seq<real>)
    requires forall i :: 0 <= i < |s| ==> s[i] >= 0.0
    ensures Sum(s) >= 0.0
  {
    if |s| > 0 {
      SumNonNegative(s[..|s| - 1]);
    }
  }

  /** The `period` values ending at index i, `data.slice(i - period + 1, i + 1)`. */
  function Window(data: seq<real>, i: nat, period: nat): seq<real>
    requires 1 <= period <= i + 1 <= |data|
  {
    data[i + 1 - period .. i + 1]
  }

  function WindowMean(data: seq<real>, i: nat, period: nat): real
    requires 1 <= period <= i + 1 <= |data|
  {
    Sum(Window(data, i, period)) / period as real
  }

  /** NaN-propagating subtraction of two series entries. */
  function Minus(a: Point, b: Point): Point
  {
    if a.Some? && b.Some? then Some(a.value - b.value) else None
  }

  /** JavaScript's `a[i]`: reading past the end gives `undefined`. */
  function At(a: seq<Point>, i: nat): Point
  {
    if i < |a| then a[i] else None
  }

  function Nones(n: nat): (r: seq<Point>)
    ensures |r| == n && forall i :: 0 <= i < n ==> r[i] == None
  {
    seq(n, _ => None)
  }

  /** `a.filter(v => !isNaN(v))`: the defined values, in order. */
  function Defined(a: seq<Point>): (r: seq<real>)
    ensures |r| <= |a|
  {
    if |a| == 0 then []
    else (match a[0] case Some(v) => [v] case None => []) + Defined(a[1..])
  }

  /** `a[k] = v` on a JavaScript array: overwrites index k, or first extends
      the array with holes up to k. */
  function StoreAt(a: seq<Point>, k: nat, v: Point): (r: seq<Point>)
    ensures |r| == if k < |a| then |a| else k + 1
    ensures r[k] == v
    ensures forall j :: 0 <= j < |r| && j != k ==> r[j] == if j < |a| then a[j] else None
  {
    if k < |a| then a[k := v] else a + Nones(k - |a|) + [v]
  }

  // ---------------------------------------------------------------------
  // Simple moving average

  /** Reference definition: NaN before the first full window, then the
      window mean. */
  function Sma(data: seq<real>, period: nat): seq<Point>
    requires period >= 1
  {
    seq(|data|, i requires 0 <= i < |data| =>
      if i + 1 < period then None else Some(WindowMean(data, i, period)))
  }

  method CalculateSMA(data: seq<real>, period: nat) returns (sma: seq<Point>)
    requires period >= 1
    ensures |sma| == |data|
    ensures forall i :: 0 <= i < |data| && i + 1 < period ==> sma[i] == None
    ensures forall i :: period <= i + 1 <= |data| ==> sma[i] == Some(WindowMean(data, i, period))
    ensures sma == Sma(data, period)
  {
    sma := [];
    for i := 0 to |data|
      invariant |sma| == i
      invariant forall k :: 0 <= k < i && k + 1 < period ==> sma[k] == None
      invariant forall k :: period <= k + 1 <= i ==> sma[k] == Some(WindowMean(data, k, period))
    {
      if i + 1 < period {
        sma := sma + [None];
      } else {
        var sum := Sum(data[i + 1 - period .. i + 1]);
        sma := sma + [Some(sum / period as real)];
      }
    }
  }

  /** Sum of a sequence read off a table of its running totals. */
  lemma {:induction false} SumByRunningTotals(s: seq<real>, totals: seq<real>)
    requires |totals| == |s| + 1 && totals[0] == 0.0
    requires forall k :: 0 <= k < |s| ==> totals[k + 1] == totals[k] + s[k]
    ensures Sum(s) == totals[|s|]
  {
    if |s| > 0 {
      SumByRunningTotals(s[..|s| - 1], totals[..|s|]);
    }
  }

  lemma RunOfFiveSum(x: real)
    ensures Sum([x, x + 1.0, x + 2.0, x + 3.0, x + 4.0]) == 5.0 * x + 10.0
  {
    SumByRunningTotals([x, x + 1.0, x + 2.0, x + 3.0, x + 4.0],
                       [0.0, x, 2.0 * x + 1.0, 3.0 * x + 3.0, 4.0 * x + 6.0, 5.0 * x + 10.0]);
  }

  /** The example closes 10, 11, ..., 20 with period 5: four NaN, then 12 .. 18. */
  lemma SmaExample()
    ensures Sma([10.0, 11.0, 12.0, 13.0, 14.0, 15.0, 16.0, 17.0, 18.0, 19.0, 20.0], 5)
         == [None, None, None, None, Some(12.0), Some(13.0), Some(14.0), Some(15.0),
             Some(16.0), Some(17.0), Some(18.0)]
  {
    var d := [10.0, 11.0, 12.0, 13.0, 14.0, 15.0, 16.0, 17.0, 18.0, 19.0, 20.0];
    var expected := [None, None, None, None, Some(12.0), Some(13.0), Some(14.0), Some(15.0),
                     Some(16.0), Some(17.0), Some(18.0)];
    var s := Sma(d, 5);
    assert forall k :: 0 <= k < 11 ==> d[k] == (k + 10) as real;
    assert forall k :: 4 <= k < 11 ==> expected[k] == Some((k + 8) as real);
    forall i | 4 <= i < 11
      ensures s[i] == expected[i]
    {
      var x := (i + 6) as real;
      var w := Window(d, i, 5);
      assert forall m :: 0 <= m < 5 ==> w[m] == x + m as real;
      assert w == [x, x + 1.0, x + 2.0, x + 3.0, x + 4.0];
      RunOfFiveSum(x);
    }
  }

  // ---------------------------------------------------------------------
  // Exponential moving average

  function Multiplier(period: nat): real
  {
    2.0 / (period as real + 1.0)
  }

  /** The EMA recurrence, seeded at index period - 1 with the mean of the
      first `period` values. */
  function EmaAt(data: seq<real>, period: nat, i: nat): real
    requires 1 <= period <= i + 1 <= |data|
    decreases i
  {
    if i + 1 == period then Sum(data[..period]) / period as real
    else Blend(data[i], EmaAt(data, period, i - 1), Multiplier(period))
  }

  /** One EMA update on defined values: `(x - prev) * multiplier + prev`. */
  function Blend(x: real, prev: real, multiplier: real): real
  {
    (x - prev) * multiplier + prev
  }

  /** One EMA update on series entries; NaN when prev is. */
  function EmaStep(x: real, prev: Point, multiplier: real): Point
  {
    match prev
    case Some(p) => Some(Blend(x, p, multiplier))
    case None => None
  }

  /** Reference definition of `calculateEMA`, including its behaviour on
      fewer than `period` values: an array of length `period` whose last
      entry is `sum(data) / period` and whose other entries are NaN or holes. */
  function Ema(data: seq<real>, period: nat): seq<Point>
    requires period >= 1
  {
    if |data| < period then
      seq(period, i requires 0 <= i < period =>
        if i + 1 == period then Some(Sum(data) / period as real) else None)
    else
      seq(|data|, i requires 0 <= i < |data| =>
        if i + 1 < period then None else Some(EmaAt(data, period, i)))
  }

  method CalculateEMA(data: seq<real>, period: nat) returns (ema: seq<Point>)
    requires period >= 1
    ensures ema == Ema(data, period)
  {
    var multiplier := Multiplier(period);
    var sum := 0.0;
    ema := [];
    for i := 0 to period
      invariant |ema| == if i < |data| then i else |data|
      invariant forall k :: 0 <= k < |ema| ==> ema[k] == None
      invariant sum == Sum(data[..|ema|])
    {
      if i < |data| {
        SumAppend(data[..i], data[i]);
        assert data[..i + 1] == data[..i] + [data[i]];
        sum := sum + data[i];
        ema := ema + [None];
      }
    }
    assert |data| < period ==> data[..|ema|] == data;
    ema := StoreAt(ema, period - 1, Some(sum / period as real));
    if |data| < period {
      return;
    }
    var i := period;
    while i < |data|
      invariant period <= i <= |data| && |ema| == i
      invariant forall k :: 0 <= k < i ==>
        ema[k] == if k + 1 < period then None else Some(EmaAt(data, period, k))
    {
      ema := ema + [EmaStep(data[i], ema[i - 1], multiplier)];
      i := i + 1;
    }
    EmaByPoints(data, period, ema);
  }

  /** A series of `|data| >= period` entries that is NaN before index
      period - 1 and follows `EmaAt` from there is the EMA series. */
  lemma EmaByPoints(data: seq<real>, period: nat, ema: seq<Point>)
    requires 1 <= period <= |data| == |ema|
    requires forall k :: 0 <= k < |data| ==>
      ema[k] == if k + 1 < period then None else Some(EmaAt(data, period, k))
    ensures ema == Ema(data, period)
  {
  }

  /** For at least `period` values: NaN before index period - 1, the seed
      (mean of the first `period` values) at period - 1, and the recurrence
      `ema[i] = (data[i] - ema[i-1]) * 2/(period+1) + ema[i-1]` after it.
      For fewer values: `period` entries, the last one `sum(data) / period`. */
  lemma EmaShape(data: seq<real>, period: nat)
    requires period >= 1
    ensures var e := Ema(data, period);
      && |e| == (if |data| < period then period else |data|)
      && (forall i :: 0 <= i < period - 1 ==> e[i] == None)
      && (|data| < period ==> e[period - 1] == Some(Sum(data) / period as real))
      && (|data| >= period ==> e[period - 1] == Some(Sum(data[..period]) / period as real))
      && (forall i :: period - 1 <= i < |data| ==> e[i].Some?)
  {
  }

  /** From index `period` on, each entry is the previous one moved towards
      the new close by the factor 2 / (period + 1). */
  lemma EmaRecurrence(data: seq<real>, period: nat, i: nat)
    requires 1 <= period <= i < |data|
    ensures Ema(data, period)[i - 1].Some? && Ema(data, period)[i].Some?
    ensures var e := Ema(data, period);
      e[i].value == (data[i] - e[i - 1].value) * Multiplier(period) + e[i - 1].value
  {
    var e := Ema(data, period);
    assert e[i - 1].value == EmaAt(data, period, i - 1);
    assert e[i].value == EmaAt(data, period, i);
  }

  // ---------------------------------------------------------------------
  // Relative strength index

  function Gain(d: real): real { if d > 0.0 then d else 0.0 }

  function Loss(d: real): real { if d < 0.0 then -d else 0.0 }

  /** `gains[k]`: the positive part of data[k + 1] - data[k]. */
  function Gains(data: seq<real>): (r: seq<real>)
    ensures |data| > 0 ==> |r| == |data| - 1
    ensures forall k :: 0 <= k < |r| ==> r[k] >= 0.0
  {
    if |data| == 0 then []
    else seq(|data| - 1, k requires 0 <= k < |data| - 1 => Gain(data[k + 1] - data[k]))
  }

  /** `losses[k]`: the magnitude of the negative part of data[k + 1] - data[k]. */
  function Losses(data: seq<real>): (r: seq<real>)
    ensures |data| > 0 ==> |r| == |data| - 1
    ensures forall k :: 0 <= k < |r| ==> r[k] >= 0.0
  {
    if |data| == 0 then []
    else seq(|data| - 1, k requires 0 <= k < |data| - 1 => Loss(data[k + 1] - data[k]))
  }

  /** RSI from a window's mean gain and mean loss; 100 when there was no loss. */
  function RsiFrom(avgGain: real, avgLoss: real): real
    requires avgGain >= 0.0 && avgLoss >= 0.0
  {
    if avgLoss == 0.0 then 100.0
    else
      var rs := avgGain / avgLoss;
      100.0 - 100.0 / (1.0 + rs)
  }

  /** Mean gain and mean loss of the `period` differences that end at data index j. */
  function AvgGain(data: seq<real>, j: nat, period: nat): (r: real)
    requires 1 <= period <= j < |data|
    ensures r >= 0.0
  {
    var w := Gains(data)[j - period .. j];
    SumNonNegative(w);
    Sum(w) / period as real
  }

  function AvgLoss(data: seq<real>, j: nat, period: nat): (r: real)
    requires 1 <= period <= j < |data|
    ensures r >= 0.0
  {
    var w := Losses(data)[j - period .. j];
    SumNonNegative(w);
    Sum(w) / period as real
  }

  /** Entry j of the RSI series (for a non-empty input): NaN until `period`
      differences exist, then the RSI of the plain windowed means (not
      Wilder smoothing) of the `period` differences ending at j. */
  function RsiPoint(data: seq<real>, period: nat, j: nat): Point
    requires 1 <= period && j < |data|
  {
    if j < period then None else Some(RsiFrom(AvgGain(data, j, period), AvgLoss(data, j, period)))
  }

  /** Reference definition of `calculateRSI`; an empty input gives `[NaN]`. */
  function Rsi(data: seq<real>, period: nat): seq<Point>
    requires period >= 1
  {
    if |data| == 0 then [None]
    else seq(|data|, j requires 0 <= j < |data| => RsiPoint(data, period, j))
  }

  /** The first loop of `calculateRSI`: the gains and losses between
      consecutive closes. */
  method Differences(data: seq<real>) returns (gains: seq<real>, losses: seq<real>)
    ensures gains == Gains(data) && losses == Losses(data)
  {
    gains := [];
    losses := [];
    var i := 1;
    while i < |data|
      invariant 1 <= i <= if |data| == 0 then 1 else |data|
      invariant |gains| == |losses| == i - 1
      invariant forall k :: 0 <= k < i - 1 ==> gains[k] == Gains(data)[k] && losses[k] == Losses(data)[k]
    {
      var difference := data[i] - data[i - 1];
      gains := gains + [if difference > 0.0 then difference else 0.0];
      losses := losses + [if difference < 0.0 then -difference else 0.0];
      i := i + 1;
    }
  }

  method CalculateRSI(data: seq<real>, period: nat) returns (rsi: seq<Point>)
    requires period >= 1
    ensures rsi == Rsi(data, period)
  {
    var gains, losses := Differences(data);
    rsi := [None];
    for k := 0 to |gains|
      invariant |rsi| == k + 1 && rsi[0] == None
      invariant forall j :: 0 <= j <= k && j < |data| ==> rsi[j] == RsiPoint(data, period, j)
    {
      if k < period - 1 {
        rsi := rsi + [None];
      } else {
        var avgGain := Sum(gains[k + 1 - period .. k + 1]) / period as real;
        var avgLoss := Sum(losses[k + 1 - period .. k + 1]) / period as real;
        assert avgGain == AvgGain(data, k + 1, period) && avgLoss == AvgLoss(data, k + 1, period);
        if avgLoss == 0.0 {
          rsi := rsi + [Some(100.0)];
        } else {
          var rs := avgGain / avgLoss;
          rsi := rsi + [Some(100.0 - 100.0 / (1.0 + rs))];
        }
        assert rsi[k + 1].value == RsiFrom(avgGain, avgLoss) == RsiPoint(data, period, k + 1).value;
      }
    }
    RsiByPoints(data, period, rsi);
  }

  /** A series that agrees with `RsiPoint` at every index is the RSI series. */
  lemma RsiByPoints(data: seq<real>, period: nat, rsi: seq<Point>)
    requires period >= 1
    requires |rsi| == if |data| == 0 then 1 else |data|
    requires |data| == 0 ==> rsi[0] == None
    requires forall j :: 0 <= j < |data| ==> rsi[j] == RsiPoint(data, period, j)
    ensures rsi == Rsi(data, period)
  {
  }

  /** The RSI series has one entry per close (one for an empty input), and
      its first `period` entries are NaN. */
  lemma RsiShape(data: seq<real>, period: nat)
    requires period >= 1
    ensures |Rsi(data, period)| == if |data| == 0 then 1 else |data|
    ensures forall j :: 0 <= j < |Rsi(data, period)| && j < period ==> Rsi(data, period)[j] == None
    ensures forall j :: period <= j < |data| ==> Rsi(data, period)[j].Some?
  {
  }

  /** A defined RSI value lies in [0, 100], and it is exactly 100 precisely
      when the window had no losses. */
  lemma RsiFromRange(avgGain: real, avgLoss: real)
    requires avgGain >= 0.0 && avgLoss >= 0.0
    ensures 0.0 <= RsiFrom(avgGain, avgLoss) <= 100.0
    ensures RsiFrom(avgGain, avgLoss) == 100.0 <==> avgLoss == 0.0
    ensures RsiFrom(avgGain, avgLoss) == 0.0 <==> avgGain == 0.0 && avgLoss > 0.0
  {
    if avgLoss > 0.0 {
      var rs := avgGain / avgLoss;
      assert rs >= 0.0;
      var q := 100.0 / (1.0 + rs);
      assert q * (1.0 + rs) == 100.0;
      assert 0.0 < q <= 100.0;
      assert q == 100.0 <==> rs == 0.0;
      assert rs == 0.0 <==> avgGain == 0.0;
    }
  }

  lemma RsiSeriesInRange(data: seq<real>, period: nat)
    requires period >= 1
    ensures forall j :: 0 <= j < |Rsi(data, period)| && Rsi(data, period)[j].Some? ==>
      0.0 <= Rsi(data, period)[j].value <= 100.0
  {
    forall j | 0 <= j < |Rsi(data, period)| && Rsi(data, period)[j].Some?
      ensures 0.0 <= Rsi(data, period)[j].value <= 100.0
    {
      RsiFromRange(AvgGain(data, j, period), AvgLoss(data, j, period));
    }
  }

  const ExampleCloses: seq<real> := [1.0, 2.0, 1.0, 3.0]

  /** In the worked example below, the three differences are +1, -1 and +2:
      gains 1, 0, 2 and losses 0, 1, 0. */
  lemma ExampleAvgGain()
    ensures AvgGain(ExampleCloses, 3, 3) == 1.0
  {
    var g := Gains(ExampleCloses);
    assert g[0] == 1.0 && g[1] == 0.0 && g[2] == 2.0;
    assert g[0..3] == [1.0, 0.0, 2.0];
    SumByRunningTotals([1.0, 0.0, 2.0], [0.0, 1.0, 1.0, 3.0]);
  }

  lemma ExampleAvgLoss()
    ensures AvgLoss(ExampleCloses, 3, 3) == 1.0 / 3.0
  {
    var l := Losses(ExampleCloses);
    assert l[0] == 0.0 && l[1] == 1.0 && l[2] == 0.0;
    assert l[0..3] == [0.0, 1.0, 0.0];
    SumByRunningTotals([0.0, 1.0, 0.0], [0.0, 0.0, 1.0, 1.0]);
  }

  /** The worked example: closes 1, 2, 1, 3 with period 3 give NaN for the
      first three entries, then 100 - 100 / (1 + 1 / (1/3)) = 75. */
  lemma RsiExample()
    ensures Rsi(ExampleCloses, 3) == [None, None, None, Some(75.0)]
  {
    ExampleAvgGain();
    ExampleAvgLoss();
    assert RsiFrom(1.0, 1.0 / 3.0) == 75.0;
  }

  // ---------------------------------------------------------------------
  // MACD

  datatype MacdResult = MacdResult(macd: seq<Point>, signal: seq<Point>, histogram: seq<Point>)

  lemma EmaLength(data: seq<real>, period: nat)
    requires period >= 1
    ensures |Ema(data, period)| == if |data| < period then period else |data|
  {
  }

  /** `calculateMACD`: EMA(12) - EMA(26) pointwise, a signal line that is the
      EMA(9) of the defined MACD values left-padded with NaN to the MACD's
      length, and their pointwise difference. */
  function CalculateMACD(data: seq<real>): MacdResult
  {
    var ema12 := Ema(data, 12);
    var ema26 := Ema(data, 26);
    var macd := seq(|ema12|, i requires 0 <= i < |ema12| => Minus(ema12[i], At(ema26, i)));
    var signal := Ema(Defined(macd), 9);
    EmaLength(Defined(macd), 9);
    EmaLength(data, 12);
    var paddedSignal := Nones(|macd| - |signal|) + signal;
    var histogram := seq(|macd|, i requires 0 <= i < |macd| => Minus(macd[i], paddedSignal[i]));
    MacdResult(macd, paddedSignal, histogram)
  }

  lemma MacdShape(data: seq<real>)
    ensures var r := CalculateMACD(data);
      && |r.macd| == |r.signal| == |r.histogram| == (if |data| < 12 then 12 else |data|)
      && (forall i :: 0 <= i < |r.macd| ==> r.macd[i] == Minus(At(Ema(data, 12), i), At(Ema(data, 26), i)))
      && (forall i :: 0 <= i < |r.macd| ==> r.histogram[i] == Minus(r.macd[i], r.signal[i]))
      && (forall i :: 0 <= i < |r.macd| && r.signal[i].Some? && r.macd[i].Some? ==>
            r.histogram[i] == Some(r.macd[i].value - r.signal[i].value))
      && |Ema(Defined(r.macd), 9)| <= |r.macd|
      && r.signal == Nones(|r.macd| - |Ema(Defined(r.macd), 9)|) + Ema(Defined(r.macd), 9)
  {
    EmaLength(data, 12);
    EmaLength(Defined(CalculateMACD(data).macd), 9);
  }

  /** The defined-values filter of a series that is NaN exactly below k. */
  lemma {:induction false} DefinedOfSuffix(a: seq<Point>, k: nat)
    requires k <= |a|
    requires forall i :: 0 <= i < k ==> a[i].None?
    requires forall i :: k <= i < |a| ==> a[i].Some?
    ensures |Defined(a)| == |a| - k
  {
    if |a| > 0 {
      if k > 0 {
        DefinedOfSuffix(a[1..], k - 1);
      } else {
        DefinedOfSuffix(a[1..], 0);
      }
    }
  }

  /** With at least 34 closes the MACD line is defined from index 25 and the
      signal line (and so the histogram) exactly from index 33. */
  lemma MacdWarmup(data: seq<real>)
    requires |data| >= 34
    ensures var r := CalculateMACD(data);
      && (forall i :: 0 <= i < |data| ==> (r.macd[i].Some? <==> i >= 25))
      && (forall i :: 0 <= i < |data| ==> (r.signal[i].Some? <==> i >= 33))
      && (forall i :: 0 <= i < |data| ==> (r.histogram[i].Some? <==> i >= 33))
  {
    var r := CalculateMACD(data);
    var ema12 := Ema(data, 12);
    var ema26 := Ema(data, 26);
    MacdShape(data);
    assert forall i :: 0 <= i < |data| ==> (r.macd[i].Some? <==> i >= 25);
    DefinedOfSuffix(r.macd, 25);
    var compact := Defined(r.macd);
    assert |compact| == |data| - 25;
    var signal := Ema(compact, 9);
    assert |signal| == |compact|;
    assert forall i :: 0 <= i < |signal| ==> (signal[i].Some? <==> i >= 8);
    assert r.signal == Nones(25) + signal;
  }

  // ---------------------------------------------------------------------
  // Bollinger bands

  datatype Bands = Bands(upper: seq<Point>, middle: seq<Point>, lower: seq<Point>)

  /** `slice.reduce((sum, val) => sum + Math.pow(val - mean, 2), 0)`. */
  function SquaredDeviations(s: seq<real>, mean: real): real
  {
    if |s| == 0 then 0.0
    else SquaredDeviations(s[..|s| - 1], mean) + (s[|s| - 1] - mean) * (s[|s| - 1] - mean)
  }

  lemma {:induction false} SquaredDeviationsNonNegative(s: seq<real>, mean: real)
    ensures SquaredDeviations(s, mean) >= 0.0
  {
    if |s| > 0 {
      SquaredDeviationsNonNegative(s[..|s| - 1], mean);
      var d := s[|s| - 1] - mean;
      if d < 0.0 {
        assert d * d == (-d) * (-d);
      }
      assert d * d >= 0.0;
    }
  }

  /** Population variance of the window ending at i (divides by `period`). */
  function Variance(data: seq<real>, i: nat, period: nat): (v: real)
    requires 1 <= period <= i + 1 <= |data|
    ensures v >= 0.0
  {
    SquaredDeviationsNonNegative(Window(data, i, period), WindowMean(data, i, period));
    SquaredDeviations(Window(data, i, period), WindowMean(data, i, period)) / period as real
  }

  /** `Math.sqrt`, given as a parameter: any function that is non-negative
      and squares back on non-negative arguments. */
  ghost predicate IsSqrt(sqrt: real -> real)
  {
    forall x :: x >= 0.0 ==> sqrt(x) >= 0.0 && sqrt(x) * sqrt(x) == x
  }

  /** The standard deviation for a variance, through the given `Math.sqrt`. */
  function StdDev(sqrt: real -> real, variance: real): real
  {
    sqrt(variance)
  }

  /** Upper and lower band entries at index i: NaN before the first full
      window, then the window mean plus or minus stdDev standard deviations. */
  function UpperAt(data: seq<real>, period: nat, stdDev: real, sqrt: real -> real, i: nat): Point
    requires 1 <= period && i < |data|
  {
    if i + 1 < period then None
    else Some(WindowMean(data, i, period) + stdDev * StdDev(sqrt, Variance(data, i, period)))
  }

  function LowerAt(data: seq<real>, period: nat, stdDev: real, sqrt: real -> real, i: nat): Point
    requires 1 <= period && i < |data|
  {
    if i + 1 < period then None
    else Some(WindowMean(data, i, period) - stdDev * StdDev(sqrt, Variance(data, i, period)))
  }

  /** Both bands are defined from the first full window on. */
  lemma BandsAt(data: seq<real>, period: nat, stdDev: real, sqrt: real -> real, i: nat)
    requires 1 <= period <= i + 1 <= |data|
    ensures UpperAt(data, period, stdDev, sqrt, i).Some? && LowerAt(data, period, stdDev, sqrt, i).Some?
    ensures UpperAt(data, period, stdDev, sqrt, i).value
         == WindowMean(data, i, period) + stdDev * StdDev(sqrt, Variance(data, i, period))
    ensures LowerAt(data, period, stdDev, sqrt, i).value
         == WindowMean(data, i, period) - stdDev * StdDev(sqrt, Variance(data, i, period))
  {
  }

  /** Reference definition of `calculateBollingerBands`. */
  function BollingerBands(data: seq<real>, period: nat, stdDev: real, sqrt: real -> real): Bands
    requires period >= 1
  {
    Bands(
      seq(|data|, i requires 0 <= i < |data| => UpperAt(data, period, stdDev, sqrt, i)),
      Sma(data, period),
      seq(|data|, i requires 0 <= i < |data| => LowerAt(data, period, stdDev, sqrt, i)))
  }

  method CalculateBollingerBands(data: seq<real>, period: nat, stdDev: real, sqrt: real -> real)
    returns (bands: Bands)
    requires period >= 1
    ensures bands == BollingerBands(data, period, stdDev, sqrt)
  {
    var middle := CalculateSMA(data, period);
    var upper: seq<Point> := [];
    var lower: seq<Point> := [];
    for i := 0 to |data|
      invariant |upper| == |lower| == i
      invariant forall k :: 0 <= k < i ==>
        upper[k] == UpperAt(data, period, stdDev, sqrt, k) && lower[k] == LowerAt(data, period, stdDev, sqrt, k)
    {
      if i + 1 < period {
        upper := upper + [None];
        lower := lower + [None];
      } else {
        var slice := data[i + 1 - period .. i + 1];
        var mean := middle[i].value;
        assert slice == Window(data, i, period) && mean == WindowMean(data, i, period);
        var variance := SquaredDeviations(slice, mean) / period as real;
        assert variance == Variance(data, i, period);
        var std := StdDev(sqrt, variance);
        assert std == StdDev(sqrt, Variance(data, i, period));
        BandsAt(data, period, stdDev, sqrt, i);
        assert mean + stdDev * std == UpperAt(data, period, stdDev, sqrt, i).value;
        assert mean - stdDev * std == LowerAt(data, period, stdDev, sqrt, i).value;
        upper := upper + [Some(mean + stdDev * std)];
        lower := lower + [Some(mean - stdDev * std)];
      }
    }
    bands := Bands(upper, middle, lower);
  }

  /** One entry per close in each band; all three are NaN exactly before the
      first full window, the middle line is the window mean from there on,
      and the outer bands are that mean plus or minus stdDev standard
      deviations. */
  lemma BollingerShape(data: seq<real>, period: nat, stdDev: real, sqrt: real -> real)
    requires period >= 1
    ensures var b := BollingerBands(data, period, stdDev, sqrt);
      && |b.upper| == |b.middle| == |b.lower| == |data|
      && (forall i :: 0 <= i < |data| ==>
            (b.upper[i].Some? <==> i + 1 >= period) && (b.middle[i].Some? <==> i + 1 >= period)
            && (b.lower[i].Some? <==> i + 1 >= period))
      && (forall i :: period - 1 <= i < |data| ==>
            b.middle[i] == Some(WindowMean(data, i, period))
            && b.upper[i] == Some(WindowMean(data, i, period) + stdDev * StdDev(sqrt, Variance(data, i, period)))
            && b.lower[i] == Some(WindowMean(data, i, period) - stdDev * StdDev(sqrt, Variance(data, i, period))))
  {
  }

  /** The bands are symmetric about the middle line, lie on either side of it
      when stdDev >= 0, and their half-width squares to stdDev^2 times the
      window's population variance. */
  lemma BollingerProperties(data: seq<real>, period: nat, stdDev: real, sqrt: real -> real, i: nat)
    requires period >= 1 && period <= i + 1 <= |data|
    requires IsSqrt(sqrt)
    ensures var b := BollingerBands(data, period, stdDev, sqrt);
      && b.upper[i].Some? && b.middle[i].Some? && b.lower[i].Some?
      && b.upper[i].value - b.middle[i].value == b.middle[i].value - b.lower[i].value
      && (b.upper[i].value - b.middle[i].value) * (b.upper[i].value - b.middle[i].value)
           == stdDev * stdDev * Variance(data, i, period)
      && (stdDev >= 0.0 ==> b.lower[i].value <= b.middle[i].value <= b.upper[i].value)
  {
    var v := Variance(data, i, period);
    var s := sqrt(v);
    assert s >= 0.0 && s * s == v;
    assert (stdDev * s) * (stdDev * s) == stdDev * stdDev * (s * s);
    if stdDev >= 0.0 {
      assert stdDev * s >= 0.0;
    }
  }

  // ---------------------------------------------------------------------
  // Aggregate

  datatype EmaSet = EmaSet(ema12: seq<Point>, ema26: seq<Point>, ema50: seq<Point>)

  datatype SmaSet = SmaSet(sma20: seq<Point>, sma50: seq<Point>, sma200: seq<Point>)

  datatype TechnicalIndicator = TechnicalIndicator(
    rsi: seq<Point>, macd: MacdResult, bollingerBands: Bands, ema: EmaSet, sma: SmaSet)

  function Closes(bars: seq<Bar>): (r: seq<real>)
    ensures |r| == |bars| && forall i :: 0 <= i < |bars| ==> r[i] == bars[i].close
  {
    seq(|bars|, i requires 0 <= i < |bars| => bars[i].close)
  }

  /** `calculateTechnicalIndicators`: every indicator over the close series,
      with the fixed periods RSI 14, Bollinger 20/2, EMA 12/26/50, SMA 20/50/200. */
  function CalculateTechnicalIndicators(bars: seq<Bar>, sqrt: real -> real): TechnicalIndicator
  {
    var closes := Closes(bars);
    TechnicalIndicator(
      Rsi(closes, 14),
      CalculateMACD(closes),
      BollingerBands(closes, 20, 2.0, sqrt),
      EmaSet(Ema(closes, 12), Ema(closes, 26), Ema(closes, 50)),
      SmaSet(Sma(closes, 20), Sma(closes, 50), Sma(closes, 200)))
  }

  /** The aggregate's series agree with each other: the Bollinger middle line
      is the 20-period SMA, the MACD line is EMA12 - EMA26, and with at least
      50 bars every series but the 200-SMA's has one entry per bar. */
  lemma IndicatorsConsistent(bars: seq<Bar>, sqrt: real -> real)
    ensures var t := CalculateTechnicalIndicators(bars, sqrt);
      && t.bollingerBands.middle == t.sma.sma20
      && |t.macd.macd| == |t.ema.ema12|
      && (forall i :: 0 <= i < |t.macd.macd| ==> t.macd.macd[i] == Minus(t.ema.ema12[i], At(t.ema.ema26, i)))
      && (|bars| >= 50 ==>
            |t.rsi| == |bars| && |t.macd.macd| == |bars| && |t.macd.signal| == |bars|
            && |t.macd.histogram| == |bars| && |t.bollingerBands.upper| == |bars|
            && |t.bollingerBands.lower| == |bars| && |t.ema.ema12| == |bars|
            && |t.ema.ema26| == |bars| && |t.ema.ema50| == |bars|
            && |t.sma.sma20| == |bars| && |t.sma.sma50| == |bars| && |t.sma.sma200| == |bars|)
  {
    MacdShape(Closes(bars));
    EmaLength(Closes(bars), 12);
    EmaLength(Closes(bars), 26);
    EmaLength(Closes(bars), 50);
  }

  // ---------------------------------------------------------------------
  // Percent change

  /** `((current - previous) / previous) * 100`; None where JavaScript
      would produce Infinity or NaN (previous == 0). */
  function CalculatePercentChange(current: real, previous: real): (r: Option<real>)
    ensures r.Some? <==> previous != 0.0
    ensures r.Some? ==> previous * (1.0 + r.value / 100.0) == current
  {
    if previous == 0.0 then None else Some(((current - previous) / previous) * 100.0)
  }
}
