// Feature recurrences: the incremental moving averages of the history loader, the
// bounded-window averages of the live engine, and how far apart they can be.
module Features {
  import opened Wrappers

  datatype Bar = Bar(close: real, high: real, low: real, volume: real, quoteVolume: real, takerBuy: real)

  // ------------------------------------------------------------------ averages

  function Alpha(period: nat): (a: real)
    requires period > 0
    ensures 0.0 < a <= 1.0
  {
    2.0 / (period as real + 1.0)
  }

  function Blend(value: real, ema: real, a: real): real {
    value * a + ema * (1.0 - a)
  }

  // The average after folding the values into an initial one.
  function EmaFrom(e: real, xs: seq<real>, a: real): real {
    if xs == [] then e else Blend(xs[|xs| - 1], EmaFrom(e, xs[..|xs| - 1], a), a)
  }

  // The average of a non-empty series starts at its first value; of nothing it is 0.
  function Ema(xs: seq<real>, a: real): real {
    if xs == [] then 0.0 else EmaFrom(xs[0], xs[1..], a)
  }

  function Pow(b: real, n: nat): real {
    if n == 0 then 1.0 else b * Pow(b, n - 1)
  }

  // The loader's update, on no previous value or on one.
  function EmaNext(previous: Option<real>, value: real, a: real): real {
    if previous.None? then value else Blend(value, previous.value, a)
  }

  // One more value moves an average of period p by 2/(p + 1) of its distance to it.
  lemma EmaMoves(previous: real, value: real, period: nat)
    requires period > 0
    ensures (EmaNext(Some(previous), value, Alpha(period)) - previous) * (period as real + 1.0)
            == 2.0 * (value - previous)
    ensures EmaNext(None, value, Alpha(period)) == value
  {
    var a, d := Alpha(period), value - previous;
    assert Blend(value, previous, a) - previous == a * d;
    assert a * (period as real + 1.0) == 2.0;
    assert a * d * (period as real + 1.0) == a * (period as real + 1.0) * d;
  }

  lemma EmaGrows(xs: seq<real>, value: real, a: real)
    ensures Ema(xs + [value], a) == EmaNext(if xs == [] then None else Some(Ema(xs, a)), value, a)
  {
    if xs != [] {
      assert (xs + [value])[1..] == xs[1..] + [value];
      assert (xs[1..] + [value])[..|xs| - 1] == xs[1..];
    } else {
      assert ([] + [value])[1..] == [];
    }
  }

  lemma {:induction false} EmaConcat(e: real, xs: seq<real>, ys: seq<real>, a: real)
    ensures EmaFrom(e, xs + ys, a) == EmaFrom(EmaFrom(e, xs, a), ys, a)
    decreases |ys|
  {
    if ys == [] {
      assert xs + ys == xs;
    } else {
      assert (xs + ys)[..|xs + ys| - 1] == xs + ys[..|ys| - 1];
      EmaConcat(e, xs, ys[..|ys| - 1], a);
    }
  }

  lemma BlendGap(value: real, e: real, f: real, g: real, w: real, next: real, a: real)
    requires e - f == w * g && next == (1.0 - a) * w
    ensures Blend(value, e, a) - Blend(value, f, a) == next * g
  {
    var d := e - f;
    assert e * (1.0 - a) - f * (1.0 - a) == d * (1.0 - a);
    assert w * g * (1.0 - a) == (1.0 - a) * w * g;
  }

  // A different start fades by one factor per value.
  lemma {:induction false} StartFades(e: real, f: real, xs: seq<real>, a: real)
    ensures EmaFrom(e, xs, a) - EmaFrom(f, xs, a) == Pow(1.0 - a, |xs|) * (e - f)
    decreases |xs|
  {
    hide Blend;
    if xs != [] {
      var p, g := xs[..|xs| - 1], e - f;
      StartFades(e, f, p, a);
      var w, next := Pow(1.0 - a, |p|), Pow(1.0 - a, |xs|);
      BlendGap(xs[|xs| - 1], EmaFrom(e, p, a), EmaFrom(f, p, a), g, w, next, a);
    }
  }

  lemma BlendInRange(v: real, e: real, lo: real, hi: real, a: real)
    requires lo <= v <= hi && lo <= e <= hi && 0.0 <= a <= 1.0
    ensures lo <= Blend(v, e, a) <= hi
  {
    assert (v - lo) * a >= 0.0 && (e - lo) * (1.0 - a) >= 0.0;
    assert (hi - v) * a >= 0.0 && (hi - e) * (1.0 - a) >= 0.0;
  }

  lemma {:induction false} EmaInRange(e: real, xs: seq<real>, a: real, lo: real, hi: real)
    requires 0.0 <= a <= 1.0 && lo <= e <= hi && forall i :: 0 <= i < |xs| ==> lo <= xs[i] <= hi
    ensures lo <= EmaFrom(e, xs, a) <= hi
    decreases |xs|
  {
    if xs != [] {
      EmaInRange(e, xs[..|xs| - 1], a, lo, hi);
      BlendInRange(xs[|xs| - 1], EmaFrom(e, xs[..|xs| - 1], a), lo, hi, a);
    }
  }

  const HISTORY: nat := 250

  // A gap at the first value of a full window, as it is left at the last.
  function Fade(gap: real, a: real): real {
    Pow(1.0 - a, 249) * gap
  }

  // Over its bounded window the engine's average equals the full one while
  // everything fits, and afterwards differs by exactly the faded gap between the
  // window's first value and the full average there.
  lemma WindowedEma(xs: seq<real>, a: real)
    ensures |xs| <= 250 ==> Ema(LastN(xs, 250), a) == Ema(xs, a)
    ensures |xs| > 250 ==>
              var s := |xs| - 250;
              Ema(xs, a) - Ema(LastN(xs, 250), a) == Fade(Ema(xs[..s + 1], a) - xs[s], a)
  {
    hide Pow;
    if |xs| > HISTORY {
      var s := |xs| - HISTORY;
      var w := LastN(xs, HISTORY);
      assert w[0] == xs[s] && w[1..] == xs[s + 1..];
      assert xs[1..] == xs[1..s + 1] + xs[s + 1..] && xs[..s + 1][1..] == xs[1..s + 1];
      EmaConcat(xs[0], xs[1..s + 1], xs[s + 1..], a);
      StartFades(EmaFrom(xs[0], xs[1..s + 1], a), xs[s], xs[s + 1..], a);
    }
  }

  lemma {:induction false} PowInRange(b: real, n: nat)
    requires 0.0 <= b <= 1.0
    ensures 0.0 <= Pow(b, n) <= 1.0
  {
    if n > 0 {
      PowInRange(b, n - 1);
      UnitProduct(b, Pow(b, n - 1));
    }
  }

  lemma UnitProduct(b: real, p: real)
    requires 0.0 <= b <= 1.0 && 0.0 <= p <= 1.0
    ensures 0.0 <= b * p <= 1.0
  {
    var c := 1.0 - b;
    NonNegativeProduct(b, p);
    NonNegativeProduct(c, p);
    assert b * p + c * p == p;
  }

  lemma NonNegativeProduct(a: real, b: real)
    requires a >= 0.0 && b >= 0.0
    ensures a * b >= 0.0
  {}

  lemma FadeInRange(gap: real, range: real, a: real)
    requires 0.0 <= a <= 1.0 && -range <= gap <= range
    ensures -Fade(range, a) <= Fade(gap, a) <= Fade(range, a)
  {
    PowInRange(1.0 - a, HISTORY - 1);
    var p := Pow(1.0 - a, HISTORY - 1);
    assert p * (range - gap) >= 0.0 && p * (gap + range) >= 0.0;
  }

  // So the two averages are never further apart than the faded close range.
  lemma WindowedEmaBound(xs: seq<real>, period: nat, lo: real, hi: real)
    requires period > 0 && forall i :: 0 <= i < |xs| ==> lo <= xs[i] <= hi
    ensures var a := Alpha(period);
            |xs| > 250 ==>
              var gap := Ema(xs, a) - Ema(LastN(xs, 250), a);
              -Fade(hi - lo, a) <= gap <= Fade(hi - lo, a)
  {
    hide Alpha, EmaFrom, Fade;
    var a := Alpha(period);
    if |xs| > HISTORY {
      var s := |xs| - HISTORY;
      WindowedEma(xs, a);
      EmaInRange(xs[0], xs[..s + 1][1..], a, lo, hi);
      FadeInRange(Ema(xs[..s + 1], a) - xs[s], hi - lo, a);
    }
  }

  // ------------------------------------------------------------- batch features

  function Sum(xs: seq<real>): real {
    if xs == [] then 0.0 else Sum(xs[..|xs| - 1]) + xs[|xs| - 1]
  }

  function Closes(bars: seq<Bar>): (r: seq<real>)
    ensures |r| == |bars| && forall i :: 0 <= i < |r| ==> r[i] == bars[i].close
  { if bars == [] then [] else Closes(bars[..|bars| - 1]) + [bars[|bars| - 1].close] }

  function Ranges(bars: seq<Bar>): (r: seq<real>)
    ensures |r| == |bars| && forall i :: 0 <= i < |r| ==> r[i] == bars[i].high - bars[i].low
  { if bars == [] then [] else Ranges(bars[..|bars| - 1]) + [bars[|bars| - 1].high - bars[|bars| - 1].low] }

  function Volumes(bars: seq<Bar>): (r: seq<real>)
    ensures |r| == |bars| && forall i :: 0 <= i < |r| ==> r[i] == bars[i].volume
  { if bars == [] then [] else Volumes(bars[..|bars| - 1]) + [bars[|bars| - 1].volume] }

  function Quotes(bars: seq<Bar>): (r: seq<real>)
    ensures |r| == |bars| && forall i :: 0 <= i < |r| ==> r[i] == bars[i].quoteVolume
  { if bars == [] then [] else Quotes(bars[..|bars| - 1]) + [bars[|bars| - 1].quoteVolume] }

  // The mean of the last n values, or of all when there are fewer.
  function RecentMean(xs: seq<real>, n: nat): real {
    Sum(LastN(xs, n)) / (if |xs| == 0 || n == 0 then 1 else if |xs| < n then |xs| else n) as real
  }

  function Ratio(a: real, b: real): real {
    if b == 0.0 then 0.0 else a / b
  }

  function Atr(bars: seq<Bar>): real {
    RecentMean(Ranges(bars), 14)
  }

  // Signed taker pressure as a share of the volume.
  function DeltaRatio(b: Bar): real {
    if b.volume == 0.0 then 0.0 else (b.takerBuy * 2.0 - b.volume) / b.volume
  }

  datatype Row = Row(atr: real, ema20: real, ema50: real, ema200: real, vwap: real, rvol: real, volatility: real,
      delta: real)

  // The feature row of the last bar, from the bars up to it alone.
  function FeatureRow(bars: seq<Bar>): Row
    requires bars != []
  {
    var closes, last := Closes(bars), bars[|bars| - 1];
    Row(Atr(bars), Ema(closes, Alpha(20)), Ema(closes, Alpha(50)), Ema(closes, Alpha(200)),
        Ratio(Sum(Quotes(bars)), Sum(Volumes(bars))),
        Ratio(last.volume, RecentMean(Volumes(bars), 30)),
        Ratio(Atr(bars), last.close), DeltaRatio(last))
  }

  predicate AreFeatures(out: seq<Row>, bars: seq<Bar>) {
    |out| == |bars| && forall i :: 0 <= i < |bars| ==> out[i] == FeatureRow(bars[..i + 1])
  }

  // The features of a prefix are the prefix of the features: no row looks ahead.
  lemma FeaturesAreCausal(out: seq<Row>, bars: seq<Bar>, n: nat, early: seq<Row>)
    requires AreFeatures(out, bars) && n <= |bars| && AreFeatures(early, bars[..n])
    ensures early == out[..n]
  {
    hide FeatureRow;
    forall i | 0 <= i < n ensures early[i] == out[i] {
      assert bars[..n][..i + 1] == bars[..i + 1];
    }
  }

  // What one more bar appends to the columns and adds to the running values.
  lemma ColumnsGrow(bars: seq<Bar>, n: nat)
    requires n < |bars|
    ensures var p, q, b := bars[..n], bars[..n + 1], bars[n];
            && Closes(q) == Closes(p) + [b.close] && Ranges(q) == Ranges(p) + [b.high - b.low]
            && Volumes(q) == Volumes(p) + [b.volume]
            && Sum(Quotes(q)) == Sum(Quotes(p)) + b.quoteVolume
            && Sum(Volumes(q)) == Sum(Volumes(p)) + b.volume
            && (p == [] <==> Closes(p) == []) && q[|q| - 1] == b
  {
    hide Closes, Ranges, Volumes, Quotes, Sum;
    var p, b := bars[..n], bars[n];
    assert bars[..n + 1] == p + [b];
    ColumnsAppend(p, b);
    SumAppend(Quotes(p), b.quoteVolume);
    SumAppend(Volumes(p), b.volume);
  }

  lemma ColumnsAppend(p: seq<Bar>, b: Bar)
    ensures Closes(p + [b]) == Closes(p) + [b.close] && Ranges(p + [b]) == Ranges(p) + [b.high - b.low]
    ensures Volumes(p + [b]) == Volumes(p) + [b.volume] && Quotes(p + [b]) == Quotes(p) + [b.quoteVolume]
  {
    assert (p + [b])[..|p|] == p;
  }

  // The average of the closes so far, before the first bar none.
  function RunningEma(bars: seq<Bar>, period: nat): Option<real>
    requires period > 0
  {
    if bars == [] then None else Some(Ema(Closes(bars), Alpha(period)))
  }

  lemma RunningEmaGrows(bars: seq<Bar>, n: nat, period: nat)
    requires n < |bars| && period > 0
    ensures RunningEma(bars[..n + 1], period)
            == Some(EmaNext(RunningEma(bars[..n], period), bars[n].close, Alpha(period)))
  {
    hide Ema, Alpha;
    ColumnsGrow(bars, n);
    EmaGrows(Closes(bars[..n]), bars[n].close, Alpha(period));
  }

  // The loader's single pass, with running averages, sums and growing lists.
  method CalculateFeatures(bars: seq<Bar>) returns (out: seq<Row>)
    ensures AreFeatures(out, bars)
  {
    hide Alpha, EmaNext, RunningEma, FeatureRow, Closes, Ranges, Volumes, Quotes, Sum, RecentMean, Ratio, DeltaRatio;
    out := [];
    var volumes: seq<real>, ranges: seq<real> := [], [];
    var ema20: Option<real>, ema50: Option<real>, ema200: Option<real> := None, None, None;
    var quote, volume := 0.0, 0.0;
    EmptyColumns();
    for n := 0 to |bars|
      invariant |out| == n && forall i :: 0 <= i < n ==> out[i] == FeatureRow(bars[..i + 1])
      invariant volumes == Volumes(bars[..n]) && ranges == Ranges(bars[..n])
      invariant quote == Sum(Quotes(bars[..n])) && volume == Sum(Volumes(bars[..n]))
      invariant ema20 == RunningEma(bars[..n], 20) && ema50 == RunningEma(bars[..n], 50)
                && ema200 == RunningEma(bars[..n], 200)
    {
      var b := bars[n];
      ColumnsGrow(bars, n);
      RunningEmaGrows(bars, n, 20);
      RunningEmaGrows(bars, n, 50);
      RunningEmaGrows(bars, n, 200);
      volumes, ranges := volumes + [b.volume], ranges + [b.high - b.low];
      quote, volume := quote + b.quoteVolume, volume + b.volume;
      ema20 := Some(EmaNext(ema20, b.close, Alpha(20)));
      ema50 := Some(EmaNext(ema50, b.close, Alpha(50)));
      ema200 := Some(EmaNext(ema200, b.close, Alpha(200)));
      var atr := RecentMean(ranges, 14);
      RowFromRunning(bars[..n + 1], b);
      out := out + [Row(atr, ema20.value, ema50.value, ema200.value, Ratio(quote, volume),
                        Ratio(b.volume, RecentMean(volumes, 30)), Ratio(atr, b.close), DeltaRatio(b))];
    }
  }

  lemma EmptyColumns()
    ensures Volumes([]) == [] && Ranges([]) == [] && Sum(Quotes([])) == 0.0 && Sum(Volumes([])) == 0.0
    ensures forall p: nat :: p > 0 ==> RunningEma([], p) == None
  {}

  // The batch row written with the running values.
  lemma RowFromRunning(bars: seq<Bar>, b: Bar)
    requires bars != [] && bars[|bars| - 1] == b
    ensures FeatureRow(bars) ==
            Row(RecentMean(Ranges(bars), 14), RunningEma(bars, 20).value, RunningEma(bars, 50).value,
                RunningEma(bars, 200).value, Ratio(Sum(Quotes(bars)), Sum(Volumes(bars))),
                Ratio(b.volume, RecentMean(Volumes(bars), 30)), Ratio(RecentMean(Ranges(bars), 14), b.close),
                    DeltaRatio(b))
  {
    hide Alpha, Ema, Closes, Ranges, Volumes, Quotes, Sum, RecentMean, Ratio, DeltaRatio;
  }

  lemma SumAppend(xs: seq<real>, x: real)
    ensures Sum(xs + [x]) == Sum(xs) + x
  {
    assert (xs + [x])[..|xs|] == xs;
  }

  // ------------------------------------------------------------- live engine

  datatype Snapshot = Snapshot(atr: real, ema20: real, ema50: real, ema200: real, vwap: real, rvol: real,
      volatility: real)

  function Traded(bars: seq<Bar>): real {
    if bars == [] then 0.0
    else Traded(bars[..|bars| - 1]) + Worth(bars[|bars| - 1])
  }

  function Worth(b: Bar): real {
    b.close * b.volume
  }

  // Volume-weighted price of the last 20 bars; no volume counts as one.
  function RecentVwap(h: seq<Bar>): real {
    var sold := Sum(Volumes(LastN(h, 20)));
    Traded(LastN(h, 20)) / (if sold == 0.0 then 1.0 else sold)
  }

  // The last volume against the mean of the earlier ones; a first bar is its own mean.
  function RelativeVolume(h: seq<Bar>): real
    requires h != []
  {
    var last := h[|h| - 1].volume;
    var average := if |h| > 1 then Sum(Volumes(h[..|h| - 1])) / (|h| - 1) as real else last;
    if average == 0.0 then 1.0 else last / average
  }

  function SnapshotOf(h: seq<Bar>): Snapshot
    requires h != []
  {
    Snapshot(Atr(h), Ema(Closes(h), Alpha(20)), Ema(Closes(h), Alpha(50)), Ema(Closes(h), Alpha(200)),
             RecentVwap(h), RelativeVolume(h), Ratio(Atr(h), h[|h| - 1].close))
  }

  class FeatureEngine {
    var bars: map<string, seq<Bar>>

    constructor ()
      ensures bars == map[]
    {
      bars := map[];
    }

    function History(symbol: string): seq<Bar>
      reads this
    {
      if symbol in bars then bars[symbol] else []
    }

    method OnBar(symbol: string, bar: Bar) returns (s: Snapshot)
      modifies this
      ensures bars == old(bars)[symbol := LastN(old(History(symbol)) + [bar], 250)]
      ensures History(symbol) != [] && s == SnapshotOf(History(symbol))
    {
      hide Ema, Alpha, RecentVwap, RelativeVolume, Ratio, RecentMean;
      var h := History(symbol) + [bar];
      if |h| > HISTORY {
        h := h[|h| - HISTORY..];
      }
      bars := bars[symbol := h];
      var atr := RecentMean(Ranges(h), 14);
      var ema20 := RunEma(Closes(h), 20);
      var ema50 := RunEma(Closes(h), 50);
      var ema200 := RunEma(Closes(h), 200);
      s := Snapshot(atr, ema20, ema50, ema200, RecentVwap(h), RelativeVolume(h), Ratio(atr, bar.close));
    }
  }

  // The engine's average loop.
  method RunEma(values: seq<real>, period: nat) returns (ema: real)
    requires period > 0
    ensures ema == Ema(values, Alpha(period))
  {
    if values == [] {
      return 0.0;
    }
    ema := values[0];
    assert values[1..1] == [];
    for i := 1 to |values|
      invariant ema == EmaFrom(values[0], values[1..i], Alpha(period))
    {
      assert values[1..i + 1][..i - 1] == values[1..i];
      ema := values[i] * Alpha(period) + ema * (1.0 - Alpha(period));
    }
    assert values[1..|values|] == values[1..];
  }

  // All bars of one symbol through the engine: it remembers the last 250.
  method Stream(symbol: string, bars: seq<Bar>) returns (engine: FeatureEngine, last: Option<Snapshot>)
    ensures fresh(engine) && engine.History(symbol) == LastN(bars, 250)
    ensures bars != [] ==> LastN(bars, 250) != [] && last == Some(SnapshotOf(LastN(bars, 250)))
  {
    hide SnapshotOf;
    engine := new FeatureEngine();
    last := None;
    for n := 0 to |bars|
      invariant fresh(engine) && engine.History(symbol) == LastN(bars[..n], HISTORY)
      invariant n > 0 ==> last == Some(SnapshotOf(LastN(bars[..n], HISTORY)))
    {
      LastNAppend(bars[..n], bars[n], HISTORY);
      assert bars[..n + 1] == bars[..n] + [bars[n]];
      var s := engine.OnBar(symbol, bars[n]);
      last := Some(s);
    }
    assert bars[..|bars|] == bars;
  }

  // Live and loaded features compared on the same bars: the range average always
  // agrees; an exponential average agrees up to 250 bars and then differs by the
  // faded gap.
  lemma LiveAgainstLoaded(bars: seq<Bar>)
    requires bars != []
    ensures var live, loaded := SnapshotOf(LastN(bars, 250)), FeatureRow(bars);
            && live.atr == loaded.atr && live.volatility == loaded.volatility
            && (|bars| <= 250 ==>
                 live.ema20 == loaded.ema20 && live.ema50 == loaded.ema50 && live.ema200 == loaded.ema200)
            && (|bars| > 250 ==>
                  var s, closes := |bars| - 250, Closes(bars);
                  && IsFadedGap(loaded.ema20 - live.ema20, closes, s, 20)
                  && IsFadedGap(loaded.ema50 - live.ema50, closes, s, 50)
                  && IsFadedGap(loaded.ema200 - live.ema200, closes, s, 200))
  {
    hide SnapshotOf, FeatureRow, Alpha, Ema, Atr, Ratio, IsFadedGap, LastN, Closes;
    LastKept(bars);
    SameAtr(bars);
    LiveEma(bars, 20);
    LiveEma(bars, 50);
    LiveEma(bars, 200);
    SnapshotParts(LastN(bars, HISTORY));
    FeatureParts(bars);
  }

  lemma SnapshotParts(h: seq<Bar>)
    requires h != []
    ensures var s := SnapshotOf(h);
            && s.atr == Atr(h) && s.volatility == Ratio(Atr(h), h[|h| - 1].close)
            && s.ema20 == Ema(Closes(h), Alpha(20)) && s.ema50 == Ema(Closes(h), Alpha(50))
                 && s.ema200 == Ema(Closes(h), Alpha(200))
  {
    hide Alpha, Ema, Atr, Ratio, RecentVwap, RelativeVolume, Closes;
  }

  lemma FeatureParts(bars: seq<Bar>)
    requires bars != []
    ensures var r := FeatureRow(bars);
            && r.atr == Atr(bars) && r.volatility == Ratio(Atr(bars), bars[|bars| - 1].close)
            && r.ema20 == Ema(Closes(bars), Alpha(20)) && r.ema50 == Ema(Closes(bars), Alpha(50))
            && r.ema200 == Ema(Closes(bars), Alpha(200))
  {
    hide Alpha, Ema, Atr, Ratio, RecentMean, DeltaRatio, Closes, Quotes, Volumes, Sum;
  }

  lemma LastKept(bars: seq<Bar>)
    requires bars != []
    ensures var h := LastN(bars, HISTORY);
            h != [] && h[|h| - 1] == bars[|bars| - 1]
  {}

  lemma SameAtr(bars: seq<Bar>)
    ensures Atr(LastN(bars, HISTORY)) == Atr(bars)
  {
    hide Sum, Ranges;
    assert Ranges(LastN(bars, HISTORY)) == LastN(Ranges(bars), HISTORY);
    assert LastN(LastN(Ranges(bars), HISTORY), 14) == LastN(Ranges(bars), 14);
  }

  lemma LiveEma(bars: seq<Bar>, period: nat)
    requires period > 0
    ensures var live, loaded := Ema(Closes(LastN(bars, HISTORY)), Alpha(period)), Ema(Closes(bars), Alpha(period));
            && (|bars| <= HISTORY ==> live == loaded)
            && (|bars| > HISTORY ==> IsFadedGap(loaded - live, Closes(bars), |bars| - HISTORY, period))
  {
    hide Ema, Alpha, Fade, Closes;
    assert Closes(LastN(bars, HISTORY)) == LastN(Closes(bars), HISTORY);
    WindowedEma(Closes(bars), Alpha(period));
  }

  // gap is the faded distance from the window's first close to the full average there.
  predicate IsFadedGap(gap: real, closes: seq<real>, s: nat, period: nat)
    requires period > 0 && s < |closes|
  {
    gap == Fade(Ema(closes[..s + 1], Alpha(period)) - closes[s], Alpha(period))
  }

  // ------------------------------------------------------- what the numbers mean

  // A total over a weight lies in a range.
  predicate Ranged(total: real, weight: real, lo: real, hi: real) {
    lo * weight <= total <= hi * weight
  }

  lemma RangedMore(total: real, weight: real, x: real, w: real, more: real, lo: real, hi: real)
    requires Ranged(total, weight, lo, hi) && lo <= x <= hi && w >= 0.0 && more == total + x * w
    ensures Ranged(more, weight + w, lo, hi)
  {
    assert (x - lo) * w >= 0.0 && (hi - x) * w >= 0.0;
  }

  lemma NothingRanged(lo: real, hi: real)
    ensures Ranged(0.0, 0.0, lo, hi)
  {}

  lemma {:induction false} SumInRange(xs: seq<real>, lo: real, hi: real)
    requires forall i :: 0 <= i < |xs| ==> lo <= xs[i] <= hi
    ensures Ranged(Sum(xs), |xs| as real, lo, hi)
    decreases |xs|
  {
    hide Ranged;
    if xs == [] {
      NothingRanged(lo, hi);
    } else {
      SumInRange(xs[..|xs| - 1], lo, hi);
      RangedMore(Sum(xs[..|xs| - 1]), (|xs| - 1) as real, xs[|xs| - 1], 1.0, Sum(xs), lo, hi);
    }
  }

  // A number whose product with the weight is the total.
  lemma QuotientInRange(q: real, a: real, b: real, lo: real, hi: real)
    requires b > 0.0 && q * b == a && Ranged(a, b, lo, hi)
    ensures lo <= q <= hi
  {
    assert q < lo ==> (lo - q) * b > 0.0;
    assert q > hi ==> (q - hi) * b > 0.0;
  }

  // q is the mean of the values.
  predicate IsMean(q: real, xs: seq<real>) {
    xs != [] && q * |xs| as real == Sum(xs)
  }

  // The mean of recent values is that of the last n and lies in the range of these alone.
  lemma RecentMeanInRange(xs: seq<real>, n: nat, lo: real, hi: real)
    requires xs != [] && n > 0 && forall i :: 0 <= i < |xs| && |xs| - n <= i ==> lo <= xs[i] <= hi
    ensures lo <= RecentMean(xs, n) <= hi && IsMean(RecentMean(xs, n), LastN(xs, n))
  {
    hide RecentMean, IsMean;
    RecentMeanIs(xs, n);
    var last := LastN(xs, n);
    assert forall i :: 0 <= i < |last| ==> last[i] == xs[|xs| - |last| + i];
    MeanInRange(RecentMean(xs, n), last, lo, hi);
  }

  lemma MeanInRange(q: real, xs: seq<real>, lo: real, hi: real)
    requires IsMean(q, xs) && forall i :: 0 <= i < |xs| ==> lo <= xs[i] <= hi
    ensures lo <= q <= hi
  {
    hide Sum, Ranged;
    SumInRange(xs, lo, hi);
    QuotientInRange(q, Sum(xs), |xs| as real, lo, hi);
  }

  lemma RecentMeanIs(xs: seq<real>, n: nat)
    requires xs != [] && n > 0
    ensures IsMean(RecentMean(xs, n), LastN(xs, n))
  {
    hide Sum;
    TimesBack(Sum(LastN(xs, n)), |LastN(xs, n)| as real);
  }

  lemma TimesBack(a: real, b: real)
    requires b != 0.0
    ensures a / b * b == a
  {}

  // The taker's share of the volume, from all sold at -1 to all bought at 1.
  lemma DeltaIsPressure(b: Bar)
    ensures b.volume == 0.0 ==> DeltaRatio(b) == 0.0
    ensures b.volume != 0.0 ==> DeltaRatio(b) * b.volume == b.takerBuy - (b.volume - b.takerBuy)
    ensures b.volume > 0.0 && 0.0 <= b.takerBuy <= b.volume ==> -1.0 <= DeltaRatio(b) <= 1.0
    ensures b.volume > 0.0 && b.takerBuy == b.volume ==> DeltaRatio(b) == 1.0
    ensures b.volume > 0.0 && b.takerBuy == 0.0 ==> DeltaRatio(b) == -1.0
  {
    if b.volume != 0.0 {
      hide Ranged;
      TimesBack(b.takerBuy * 2.0 - b.volume, b.volume);
      if b.takerBuy == b.volume { SameQuotient(DeltaRatio(b), 1.0, b.volume); }
      if b.takerBuy == 0.0 { SameQuotient(DeltaRatio(b), -1.0, b.volume); }
    }
    if b.volume > 0.0 && 0.0 <= b.takerBuy <= b.volume {
      QuotientInRange(DeltaRatio(b), b.takerBuy * 2.0 - b.volume, b.volume, -1.0, 1.0);
    }
  }

  lemma SameQuotient(p: real, q: real, b: real)
    requires b != 0.0 && p * b == q * b
    ensures p == q
  {
    assert (p - q) * b == 0.0;
  }

  // The loaded row: each ratio gives its numerator back, and is zero over nothing.
  lemma FeatureRowMeans(bars: seq<Bar>)
    requires bars != []
    ensures var r, b := FeatureRow(bars), bars[|bars| - 1];
            var volume, recent := Sum(Volumes(bars)), RecentMean(Volumes(bars), 30);
            && r.atr == RecentMean(Ranges(bars), 14)
            && (if volume == 0.0 then r.vwap == 0.0 else r.vwap * volume == Sum(Quotes(bars)))
            && (if recent == 0.0 then r.rvol == 0.0 else r.rvol * recent == b.volume)
            && (if b.close == 0.0 then r.volatility == 0.0 else r.volatility * b.close == r.atr)
            && r.delta == DeltaRatio(b)
            && r.ema20 == Ema(Closes(bars), Alpha(20)) && r.ema50 == Ema(Closes(bars), Alpha(50))
            && r.ema200 == Ema(Closes(bars), Alpha(200))
  {
    hide RecentMean, Alpha, Ema, DeltaRatio, Sum, Closes, Volumes, Quotes, Ranges;
  }

  lemma {:induction false} TradedInRange(bars: seq<Bar>, lo: real, hi: real)
    requires forall i :: 0 <= i < |bars| ==> lo <= bars[i].close <= hi && bars[i].volume >= 0.0
    ensures Ranged(Traded(bars), Sum(Volumes(bars)), lo, hi)
    decreases |bars|
  {
    hide Ranged, Worth;
    if bars == [] {
      assert Volumes(bars) == [];
      NothingRanged(lo, hi);
    } else {
      var p, b := bars[..|bars| - 1], bars[|bars| - 1];
      TradedInRange(p, lo, hi);
      LastTrade(bars);
      hide Sum, Volumes, Traded;
      BarIsRanged(Traded(p), Sum(Volumes(p)), b, Traded(bars), lo, hi);
    }
  }

  lemma BarIsRanged(total: real, weight: real, b: Bar, more: real, lo: real, hi: real)
    requires Ranged(total, weight, lo, hi) && lo <= b.close <= hi && b.volume >= 0.0 && more == total + Worth(b)
    ensures Ranged(more, weight + b.volume, lo, hi)
  {
    RangedMore(total, weight, b.close, b.volume, more, lo, hi);
  }

  lemma LastTrade(bars: seq<Bar>)
    requires bars != []
    ensures var p, b := bars[..|bars| - 1], bars[|bars| - 1];
            && Sum(Volumes(bars)) == Sum(Volumes(p)) + b.volume
            && Traded(bars) == Traded(p) + Worth(b)
  {
    hide Worth;
    assert Volumes(bars)[..|bars| - 1] == Volumes(bars[..|bars| - 1]);
  }

  // The live volume-weighted price lies in the range of the last twenty closes, whatever
  // came before; without volume it is zero.
  lemma VwapInRange(h: seq<Bar>, lo: real, hi: real)
    requires forall i :: 0 <= i < |h| && |h| - 20 <= i ==> lo <= h[i].close <= hi && h[i].volume >= 0.0
    ensures Sum(Volumes(LastN(h, 20))) > 0.0 ==> lo <= RecentVwap(h) <= hi
    ensures Sum(Volumes(LastN(h, 20))) == 0.0 ==> RecentVwap(h) == 0.0
  {
    hide Sum, Traded, Volumes, Ranged;
    var last := LastN(h, 20);
    assert forall i :: 0 <= i < |last| ==> last[i] == h[|h| - |last| + i];
    TradedInRange(last, lo, hi);
    if Sum(Volumes(last)) > 0.0 {
      TimesBack(Traded(last), Sum(Volumes(last)));
      QuotientInRange(RecentVwap(h), Traded(last), Sum(Volumes(last)), lo, hi);
    } else if Sum(Volumes(last)) == 0.0 {
      RangedOverNothing(Traded(last), lo, hi);
    }
  }

  lemma RangedOverNothing(total: real, lo: real, hi: real)
    requires Ranged(total, 0.0, lo, hi)
    ensures total == 0.0
  {}

  // The live relative volume compares the last bar with the mean of the ones before it;
  // a first bar, and a last one after no volume, count as ordinary.
  lemma RelativeVolumeMeans(h: seq<Bar>)
    requires h != []
    ensures var earlier := Sum(Volumes(h[..|h| - 1]));
            if |h| == 1 || earlier == 0.0 then RelativeVolume(h) == 1.0
            else RelativeVolume(h) * earlier == h[|h| - 1].volume * (|h| - 1) as real
  {
    hide Sum, Volumes;
    var n, earlier := (|h| - 1) as real, Sum(Volumes(h[..|h| - 1]));
    if |h| > 1 && earlier == 0.0 {
      assert earlier / n == 0.0;
    }
    if |h| == 1 && h[0].volume != 0.0 {
      TimesBack(h[0].volume, h[0].volume);
      assert h[0].volume / h[0].volume == 1.0;
    }
    if |h| > 1 && earlier != 0.0 {
      var average := earlier / n;
      assert average * n == earlier && average != 0.0;
      var r := h[|h| - 1].volume / average;
      assert r * average == h[|h| - 1].volume;
      assert r * earlier == r * (average * n) == (r * average) * n;
    }
  }

}
