// The replay backtest: one pass over feature rows that opens, manages and closes
// one position at a time, specified by what its trades are rather than by the pass.
module Backtest {
  import opened Wrappers

  datatype Row = Row(
    openTime: int, high: real, low: real, close: real, atr: real, ema20: real, ema50: real,
    vwap: real, rvol: real, delta: real, volatility: real)

  const WARMUP: nat := 200

  predicate BuySignal(r: Row) {
    && r.close > r.ema20 > r.ema50
    && r.close > r.vwap
    && r.rvol >= 0.9
    && r.delta > 0.02
    && 0.001 <= r.volatility <= 0.08
  }

  datatype Position = Position(entryIndex: nat, entry: real, stop: real, takeProfit: real, bars: nat)

  datatype ExitReason = StopHit | TakeProfitHit | TimeUp | Ema20Loss

  datatype Trade = Trade(
    entryIndex: nat, exitIndex: nat, entryTime: int, exitTime: int,
    entry: real, exit: real, stop: real, takeProfit: real,
    bars: nat, returnPct: real, pnl: real, reason: ExitReason)

  // The position a buy signal on row i opens.
  function Enter(r: Row, i: nat): Position {
    Position(i, r.close, Max(0.000001, r.close - 1.4 * r.atr), r.close + 2.4 * r.atr, 0)
  }

  // Why, and at what price, a position is closed on a row after being held `bars`
  // bars: the stop is looked at before the target, the clock before the average.
  function ExitOn(p: Position, r: Row, bars: nat, maxHold: int): Option<(ExitReason, real)> {
    if r.low <= p.stop then Some((StopHit, p.stop))
    else if r.high >= p.takeProfit then Some((TakeProfitHit, p.takeProfit))
    else if bars >= maxHold then Some((TimeUp, r.close))
    else if r.close < r.ema20 then Some((Ema20Loss, r.close))
    else None
  }

  function ReturnPct(entry: real, exit: real): real
    requires entry != 0.0
  {
    (exit - entry) / entry * 100.0
  }

  function Close(p: Position, rows: seq<Row>, i: nat, why: (ExitReason, real), notional: real): Trade
    requires p.entry != 0.0 && p.entryIndex < |rows| && i < |rows|
  {
    var pct := ReturnPct(p.entry, why.1);
    Trade(p.entryIndex, i, rows[p.entryIndex].openTime, rows[i].openTime, p.entry, why.1,
          p.stop, p.takeProfit, p.bars, pct, notional * (pct / 100.0), why.0)
  }

  // ------------------------------------------------------------ specification

  // Held from a buy signal on row e through row n without meeting an exit.
  predicate Held(rows: seq<Row>, e: nat, n: nat, maxHold: int) {
    && WARMUP <= e < |rows| && n < |rows| && BuySignal(rows[e])
    && forall j :: e < j <= n ==> ExitOn(Enter(rows[e], e), rows[j], j - e, maxHold) == None
  }

  // A trade enters on a buy signal past the warm-up and leaves on the first later
  // row that meets an exit, at that exit's price.
  predicate IsTrade(rows: seq<Row>, notional: real, maxHold: int, t: Trade) {
    && t.entryIndex < t.exitIndex < |rows|
    && Held(rows, t.entryIndex, t.exitIndex - 1, maxHold)
    && rows[t.entryIndex].close != 0.0
    && var p := Enter(rows[t.entryIndex], t.entryIndex).(bars := t.exitIndex - t.entryIndex);
       var why := ExitOn(p, rows[t.exitIndex], p.bars, maxHold);
       why.Some? && t == Close(p, rows, t.exitIndex, why.value, notional)
  }

  // A position still open after row n - 1.
  predicate IsOpen(rows: seq<Row>, n: nat, maxHold: int, p: Position) {
    && p.entryIndex < n <= |rows|
    && Held(rows, p.entryIndex, n - 1, maxHold)
    && p == Enter(rows[p.entryIndex], p.entryIndex).(bars := n - 1 - p.entryIndex)
  }

  // Row i lies inside a closed trade or the open position.
  predicate Covered(i: nat, trades: seq<Trade>, open: Option<Position>) {
    || (exists k :: 0 <= k < |trades| && trades[k].entryIndex <= i < trades[k].exitIndex)
    || (open.Some? && open.value.entryIndex <= i)
  }

  predicate Chronological(trades: seq<Trade>, open: Option<Position>) {
    && (forall k, l :: 0 <= k < l < |trades| ==> trades[k].exitIndex <= trades[l].entryIndex)
    && (forall k :: 0 <= k < |trades| && open.Some? ==> trades[k].exitIndex <= open.value.entryIndex)
  }

  // The first n rows replayed: genuine trades in order, at most one open position,
  // and none of the first `seen` rows past the warm-up gave a buy signal that was
  // ignored while flat.
  predicate Replayed(rows: seq<Row>, n: nat, seen: nat, notional: real, maxHold: int,
                     trades: seq<Trade>, open: Option<Position>) {
    && seen <= n <= |rows|
    && (forall k :: 0 <= k < |trades| ==> trades[k].exitIndex < n && IsTrade(rows, notional, maxHold, trades[k]))
    && (open.Some? ==> IsOpen(rows, n, maxHold, open.value))
    && Chronological(trades, open)
    && forall i :: WARMUP <= i < seen && BuySignal(rows[i]) ==> Covered(i, trades, open)
  }

  predicate IsReplay(rows: seq<Row>, notional: real, maxHold: int, trades: seq<Trade>, open: Option<Position>) {
    Replayed(rows, |rows|, |rows|, notional, maxHold, trades, open)
  }

  // Realised profit by the end of row i.
  function RealisedBy(trades: seq<Trade>, i: int): real {
    if trades == [] then 0.0
    else
      var t := trades[|trades| - 1];
      RealisedBy(trades[..|trades| - 1], i) + if t.exitIndex <= i then t.pnl else 0.0
  }

  predicate IsEquityCurve(curve: seq<real>, n: nat, trades: seq<Trade>) {
    |curve| == n && forall i :: 0 <= i < n ==> curve[i] == RealisedBy(trades, i)
  }

  // ---------------------------------------------------------------- the replay

  lemma HoldStep(rows: seq<Row>, n: nat, notional: real, maxHold: int, trades: seq<Trade>, p: Position)
    requires n < |rows| && Replayed(rows, n, n, notional, maxHold, trades, Some(p))
    requires ExitOn(p, rows[n], p.bars + 1, maxHold) == None
    ensures Replayed(rows, n + 1, n, notional, maxHold, trades, Some(p.(bars := p.bars + 1)))
  {
    hide BuySignal, Enter, IsTrade;
    var q := p.(bars := p.bars + 1);
    forall i | WARMUP <= i < n && BuySignal(rows[i]) ensures Covered(i, trades, Some(q)) {
      assert Covered(i, trades, Some(p));
    }
    var e := Enter(rows[p.entryIndex], p.entryIndex);
    assert ExitOn(e, rows[n], n - p.entryIndex, maxHold) == ExitOn(p, rows[n], n - p.entryIndex, maxHold);
  }

  lemma ClosedIsTrade(rows: seq<Row>, n: nat, notional: real, maxHold: int, p: Position)
    requires n < |rows| && IsOpen(rows, n, maxHold, p) && p.entry != 0.0
    requires ExitOn(p, rows[n], p.bars + 1, maxHold).Some?
    ensures var why := ExitOn(p, rows[n], p.bars + 1, maxHold).value;
            var t := Close(p.(bars := p.bars + 1), rows, n, why, notional);
            IsTrade(rows, notional, maxHold, t) && t.entryIndex == p.entryIndex && t.exitIndex == n
  {
    hide BuySignal;
  }

  lemma ExitStep(rows: seq<Row>, n: nat, notional: real, maxHold: int, trades: seq<Trade>, p: Position, t: Trade)
    requires n < |rows| && Replayed(rows, n, n, notional, maxHold, trades, Some(p))
    requires IsTrade(rows, notional, maxHold, t) && t.entryIndex == p.entryIndex && t.exitIndex == n
    ensures Replayed(rows, n + 1, n, notional, maxHold, trades + [t], None)
  {
    hide BuySignal, IsTrade, IsOpen;
    forall i | WARMUP <= i < n && BuySignal(rows[i]) ensures Covered(i, trades + [t], None) {
      CoverageStep(i, trades, p, t);
    }
  }

  lemma CoverageStep(i: nat, trades: seq<Trade>, p: Position, t: Trade)
    requires Covered(i, trades, Some(p)) && p.entryIndex == t.entryIndex && i < t.exitIndex
    ensures Covered(i, trades + [t], None)
  {
    var all := trades + [t];
    if p.entryIndex <= i {
      assert all[|trades|].entryIndex <= i < all[|trades|].exitIndex;
    } else {
      var k :| 0 <= k < |trades| && trades[k].entryIndex <= i < trades[k].exitIndex;
      assert all[k] == trades[k];
    }
  }

  lemma EnterStep(rows: seq<Row>, n: nat, notional: real, maxHold: int, trades: seq<Trade>)
    requires WARMUP <= n < |rows| && Replayed(rows, n + 1, n, notional, maxHold, trades, None)
    requires BuySignal(rows[n])
    ensures Replayed(rows, n + 1, n + 1, notional, maxHold, trades, Some(Enter(rows[n], n)))
  {
    hide BuySignal, IsTrade;
    var open := Some(Enter(rows[n], n));
    forall i | WARMUP <= i < n + 1 && BuySignal(rows[i]) ensures Covered(i, trades, open) {
      if i < n { assert Covered(i, trades, None); }
    }
  }

  lemma SeenStep(rows: seq<Row>, n: nat, notional: real, maxHold: int, trades: seq<Trade>, open: Option<Position>)
    requires n < |rows| && Replayed(rows, n + 1, n, notional, maxHold, trades, open)
    requires n < WARMUP || open.Some? || !BuySignal(rows[n])
    ensures Replayed(rows, n + 1, n + 1, notional, maxHold, trades, open)
  {
    hide BuySignal, IsTrade;
  }

  lemma FlatStep(rows: seq<Row>, n: nat, notional: real, maxHold: int, trades: seq<Trade>)
    requires n < |rows| && Replayed(rows, n, n, notional, maxHold, trades, None)
    ensures Replayed(rows, n + 1, n, notional, maxHold, trades, None)
  {
    hide BuySignal, IsTrade;
  }

  lemma RealisedAppend(trades: seq<Trade>, t: Trade, i: int)
    ensures RealisedBy(trades + [t], i) == RealisedBy(trades, i) + if t.exitIndex <= i then t.pnl else 0.0
  {
    assert (trades + [t])[..|trades|] == trades;
  }

  lemma {:induction false} RealisedSettled(trades: seq<Trade>, i: int, j: int)
    requires forall k :: 0 <= k < |trades| ==> trades[k].exitIndex <= i && trades[k].exitIndex <= j
    ensures RealisedBy(trades, i) == RealisedBy(trades, j)
    decreases |trades|
  {
    if trades != [] { RealisedSettled(trades[..|trades| - 1], i, j); }
  }

  lemma CurveStep(rows: seq<Row>, curve: seq<real>, n: nat, trades: seq<Trade>, t: Trade)
    requires IsEquityCurve(curve, n, trades) && t.exitIndex == n
    ensures IsEquityCurve(curve, n, trades + [t])
  {
    forall i | 0 <= i < n ensures curve[i] == RealisedBy(trades + [t], i) {
      RealisedAppend(trades, t, i);
    }
  }

  lemma CurvePush(curve: seq<real>, n: nat, trades: seq<Trade>)
    requires IsEquityCurve(curve, n, trades)
    ensures IsEquityCurve(curve + [RealisedBy(trades, n)], n + 1, trades)
  {}

  lemma OpenEntry(rows: seq<Row>, n: nat, maxHold: int, p: Position)
    requires IsOpen(rows, n, maxHold, p)
    ensures p.entryIndex < |rows|
  {}

  datatype Replay = Replay(trades: seq<Trade>, curve: seq<real>, equity: real, open: Option<Position>)

  datatype ReplayError = EmptyFeatures | ZeroEntryPrice

  // Row n closes a position that was entered at price zero, whose return is undefined.
  predicate ClosesZeroEntry(rows: seq<Row>, n: nat, notional: real, maxHold: int, trades: seq<Trade>, p: Position) {
    n < |rows| && Replayed(rows, n, n, notional, maxHold, trades, Some(p))
    && p.entry == 0.0 && ExitOn(p, rows[n], p.bars + 1, maxHold).Some?
  }

  lemma ZeroEntriesInRange(rows: seq<Row>, notional: real, maxHold: int)
    ensures forall n: nat, ts, p :: ClosesZeroEntry(rows, n, notional, maxHold, ts, p) ==> n < |rows|
  {}

  lemma ZeroEntryCloses(rows: seq<Row>, n: nat, notional: real, maxHold: int, trades: seq<Trade>, p: Position)
    requires n < |rows| && Replayed(rows, n, n, notional, maxHold, trades, Some(p))
    requires p.entry == 0.0 && ExitOn(p, rows[n], p.bars + 1, maxHold).Some?
    ensures ClosesZeroEntry(rows, n, notional, maxHold, trades, p)
  {}

  method RunSymbolReplay(rows: seq<Row>, notional: real, maxHold: int) returns (r: Result<Replay, ReplayError>)
    ensures r.Ok? ==>
              && IsReplay(rows, notional, maxHold, r.value.trades, r.value.open)
              && IsEquityCurve(r.value.curve, |rows|, r.value.trades)
              && r.value.equity == RealisedBy(r.value.trades, |rows|)
    ensures r == Err(EmptyFeatures) <==> rows == []
    ensures r == Err(ZeroEntryPrice) <==> exists n: nat, ts, p :: ClosesZeroEntry(rows, n, notional, maxHold, ts, p)
  {
    hide BuySignal, Replayed, ExitOn, Close, IsTrade, IsOpen, Enter, IsEquityCurve, RealisedBy;
    ZeroEntriesInRange(rows, notional, maxHold);
    hide ClosesZeroEntry;
    if rows == [] {
      return Err(EmptyFeatures);
    }
    var trades: seq<Trade>, curve, equity, open: Option<Position> := [], [], 0.0, None;
    NothingReplayed(rows, notional, maxHold);
    for n := 0 to |rows|
      invariant Replayed(rows, n, n, notional, maxHold, trades, open)
      invariant IsEquityCurve(curve, n, trades) && equity == RealisedBy(trades, n)
      invariant forall m: nat, ts, p :: m < n ==> !ClosesZeroEntry(rows, m, notional, maxHold, ts, p)
    {
      ExitsSoFar(rows, n, notional, maxHold, trades, open);
      ghost var before, was := trades, open;
      if n >= WARMUP {
        if open.Some? {
          var p := open.value;
          OpenEntry(rows, n, maxHold, p);
          var why := ExitOn(p, rows[n], p.bars + 1, maxHold);
          if why.Some? {
            if p.entry == 0.0 {
              ZeroEntryCloses(rows, n, notional, maxHold, trades, p);
              return Err(ZeroEntryPrice);
            }
            var t := Close(p.(bars := p.bars + 1), rows, n, why.value, notional);
            ClosedIsTrade(rows, n, notional, maxHold, p);
            ExitStep(rows, n, notional, maxHold, trades, p, t);
            RealisedAppend(trades, t, n);
            CurveStep(rows, curve, n, trades, t);
            equity := equity + t.pnl;
            trades := trades + [t];
            open := None;
          } else {
            HoldStep(rows, n, notional, maxHold, trades, p);
            open := Some(p.(bars := p.bars + 1));
          }
        } else {
          FlatStep(rows, n, notional, maxHold, trades);
        }
        if open.None? && BuySignal(rows[n]) {
          EnterStep(rows, n, notional, maxHold, trades);
          open := Some(Enter(rows[n], n));
        } else {
          SeenStep(rows, n, notional, maxHold, trades, open);
        }
      } else {
        FlatStep(rows, n, notional, maxHold, trades);
        SeenStep(rows, n, notional, maxHold, trades, open);
      }
      NoOtherZeroEntry(rows, n, notional, maxHold, before, was);
      CurvePush(curve, n, trades);
      curve := curve + [equity];
      ExitsSoFar(rows, n + 1, notional, maxHold, trades, open);
      RealisedSettled(trades, n, n + 1);
    }
    return Ok(Replay(trades, curve, equity, open));
  }

  lemma NothingReplayed(rows: seq<Row>, notional: real, maxHold: int)
    ensures Replayed(rows, 0, 0, notional, maxHold, [], None)
    ensures IsEquityCurve([], 0, []) && RealisedBy([], 0) == 0.0
  {}

  // Every exit so far is on an earlier row, and nothing opens during the warm-up.
  lemma ExitsSoFar(rows: seq<Row>, n: nat, notional: real, maxHold: int, trades: seq<Trade>, open: Option<Position>)
    requires Replayed(rows, n, n, notional, maxHold, trades, open)
    ensures forall k :: 0 <= k < |trades| ==> trades[k].exitIndex < n
    ensures open.Some? ==> IsOpen(rows, n, maxHold, open.value) && n > WARMUP
  {
    hide BuySignal, IsTrade, Enter, ExitOn;
  }

  // ------------------------------------------------------------- main results

  // No row past a replay's warm-up is held by two positions.
  lemma AtMostOnePosition(rows: seq<Row>, notional: real, maxHold: int, trades: seq<Trade>, open: Option<Position>,
                          i: nat, k: nat, l: nat)
    requires IsReplay(rows, notional, maxHold, trades, open) && k < |trades|
    requires trades[k].entryIndex <= i < trades[k].exitIndex
    ensures l < |trades| && trades[l].entryIndex <= i < trades[l].exitIndex ==> k == l
    ensures open.Some? ==> i < open.value.entryIndex
  {
    hide IsTrade, IsOpen, BuySignal;
  }

  // How long a trade lasts and where it can exit.  On well-formed rows the exit
  // price lies between stop and target exactly when stop and target are in order,
  // which a positive entry price and range guarantee.
  lemma TradeBounds(rows: seq<Row>, notional: real, maxHold: int, t: Trade)
    requires IsTrade(rows, notional, maxHold, t)
    ensures 1 <= t.bars == t.exitIndex - t.entryIndex <= (if maxHold >= 1 then maxHold else 1)
    ensures rows[t.exitIndex].low <= rows[t.exitIndex].close <= rows[t.exitIndex].high ==>
              (t.stop <= t.exit <= t.takeProfit <==> t.stop <= t.takeProfit)
    ensures rows[t.entryIndex].atr >= 0.0 && t.entry >= 0.000001 ==> t.stop <= t.takeProfit
    ensures t.entry * t.pnl == notional * (t.exit - t.entry)
  {
    hide BuySignal;
    var e, x := t.entryIndex, t.exitIndex;
    if x > e + 1 {
      assert ExitOn(Enter(rows[e], e), rows[x - 1], x - 1 - e, maxHold) == None;
    }
    var gain := (t.exit - t.entry) / t.entry;
    assert gain * t.entry == t.exit - t.entry;
    assert t.pnl == notional * gain;
  }

  datatype ScanBucket = InTrade | BuyBucket | WatchBucket | NoSignal

  function Points(b: bool): nat { if b then 1 else 0 }

  predicate WatchSignal(r: Row) {
    Points(r.close > r.ema20) + Points(r.ema20 >= r.ema50) + Points(r.close >= r.vwap * 0.995)
      + Points(r.rvol >= 0.7) + Points(r.delta > -0.05) >= 3
  }

  function ClassifyLatest(latest: Row, open: Option<Position>): ScanBucket {
    if open.Some? then InTrade
    else if BuySignal(latest) then BuyBucket
    else if WatchSignal(latest) then WatchBucket
    else NoSignal
  }

  // Past the warm-up a buy signal on the last row is always already a position, so
  // the scanner's BUY bucket is reached only on 200 rows or fewer.
  lemma BuyBucketNeedsShortHistory(rows: seq<Row>, notional: real, maxHold: int, trades: seq<Trade>,
      open: Option<Position>)
    requires rows != [] && IsReplay(rows, notional, maxHold, trades, open)
    ensures var latest := rows[|rows| - 1];
            && (|rows| > WARMUP && BuySignal(latest) ==> ClassifyLatest(latest, open) == InTrade)
            && (ClassifyLatest(latest, open) == BuyBucket <==> |rows| <= WARMUP && BuySignal(latest))
  {
    hide IsTrade, BuySignal, WatchSignal;
    var last := |rows| - 1;
    if BuySignal(rows[last]) && |rows| > WARMUP {
      assert Covered(last, trades, open);
    }
  }

  // ------------------------------------------------------------- uniqueness

  // Where the k-th position, closed or still open, was entered.
  function EntryAt(ts: seq<Trade>, p: Option<Position>, k: nat): Option<nat> {
    if k < |ts| then Some(ts[k].entryIndex)
    else if k == |ts| && p.Some? then Some(p.value.entryIndex)
    else None
  }

  lemma EntryIsSignal(rows: seq<Row>, n: nat, notional: real, maxHold: int, ts: seq<Trade>, p: Option<Position>, k: nat)
    requires Replayed(rows, n, n, notional, maxHold, ts, p) && EntryAt(ts, p, k).Some?
    ensures WARMUP <= EntryAt(ts, p, k).value < n <= |rows| && BuySignal(rows[EntryAt(ts, p, k).value])
  {
    hide BuySignal, Enter, ExitOn, Close, Covered;
  }

  lemma TradesLast(rows: seq<Row>, n: nat, notional: real, maxHold: int, ts: seq<Trade>, p: Option<Position>)
    requires Replayed(rows, n, n, notional, maxHold, ts, p)
    ensures forall k :: 0 <= k < |ts| ==> ts[k].entryIndex < ts[k].exitIndex
  {
    hide Held, Enter, ExitOn, Close, Covered, IsOpen;
  }

  // Replays that agree so far enter next at the same row or earlier: the row is a
  // buy signal, so the other replay must hold a position there.
  lemma NextEntryNoLater(rows: seq<Row>, n: nat, notional: real, maxHold: int,
      ts: seq<Trade>, p: Option<Position>, us: seq<Trade>, q: Option<Position>, k: nat)
    requires Replayed(rows, n, n, notional, maxHold, ts, p) && Replayed(rows, n, n, notional, maxHold, us, q)
    requires k <= |ts| && k <= |us| && ts[..k] == us[..k] && EntryAt(ts, p, k).Some?
    ensures EntryAt(us, q, k).Some? && EntryAt(us, q, k).value <= EntryAt(ts, p, k).value
  {
    hide BuySignal, IsTrade, IsOpen;
    EntryIsSignal(rows, n, notional, maxHold, ts, p, k);
    TradesLast(rows, n, notional, maxHold, us, q);
    var e := EntryAt(ts, p, k).value;
    assert Covered(e, us, q);
    assert forall l :: 0 <= l < k ==> us[l] == us[..k][l] == ts[l];
    if !(q.Some? && q.value.entryIndex <= e) {
      var l :| 0 <= l < |us| && us[l].entryIndex <= e < us[l].exitIndex;
    }
  }

  lemma SameExit(rows: seq<Row>, notional: real, maxHold: int, t: Trade, u: Trade)
    requires IsTrade(rows, notional, maxHold, t) && IsTrade(rows, notional, maxHold, u)
    requires t.entryIndex == u.entryIndex
    ensures t == u
  {
    hide BuySignal, ExitOn;
    var e := Enter(rows[t.entryIndex], t.entryIndex);
    StillOpen(rows, t.entryIndex, e, t.exitIndex, maxHold);
    StillOpen(rows, t.entryIndex, e, u.exitIndex, maxHold);
  }

  // Whether a position exits on a row does not depend on its bar counter field.
  lemma StillOpen(rows: seq<Row>, i: nat, e: Position, x: nat, maxHold: int)
    requires i < x < |rows|
    ensures ExitOn(e.(bars := x - i), rows[x], x - i, maxHold) == ExitOn(e, rows[x], x - i, maxHold)
  {}

  lemma ClosedIsNotOpen(rows: seq<Row>, n: nat, notional: real, maxHold: int, t: Trade, q: Position)
    requires IsTrade(rows, notional, maxHold, t) && IsOpen(rows, n, maxHold, q) && t.exitIndex < n
    ensures t.entryIndex != q.entryIndex
  {
    hide BuySignal, ExitOn;
    StillOpen(rows, t.entryIndex, Enter(rows[t.entryIndex], t.entryIndex), t.exitIndex, maxHold);
  }

  lemma {:induction false} SameTrades(rows: seq<Row>, n: nat, notional: real, maxHold: int,
      ts: seq<Trade>, p: Option<Position>, us: seq<Trade>, q: Option<Position>, k: nat)
    requires Replayed(rows, n, n, notional, maxHold, ts, p) && Replayed(rows, n, n, notional, maxHold, us, q)
    requires k <= |ts|
    ensures k <= |us| && ts[..k] == us[..k]
  {
    hide BuySignal, Enter, ExitOn, Close, IsTrade, IsOpen;
    if k > 0 {
      SameTrades(rows, n, notional, maxHold, ts, p, us, q, k - 1);
      NextEntryNoLater(rows, n, notional, maxHold, ts, p, us, q, k - 1);
      NextEntryNoLater(rows, n, notional, maxHold, us, q, ts, p, k - 1);
      if k - 1 == |us| {
        ClosedIsNotOpen(rows, n, notional, maxHold, ts[k - 1], q.value);
      }
      SameExit(rows, notional, maxHold, ts[k - 1], us[k - 1]);
      assert ts[..k] == ts[..k - 1] + [ts[k - 1]] && us[..k] == us[..k - 1] + [us[k - 1]];
    }
  }

  // A replay of the first n rows leaves no freedom: rows, notional and holding limit
  // fix the trades and the open position.
  lemma PrefixIsUnique(rows: seq<Row>, n: nat, notional: real, maxHold: int,
      ts: seq<Trade>, p: Option<Position>, us: seq<Trade>, q: Option<Position>)
    requires Replayed(rows, n, n, notional, maxHold, ts, p) && Replayed(rows, n, n, notional, maxHold, us, q)
    ensures ts == us && p == q
  {
    hide BuySignal, ExitOn, Close, IsTrade;
    SameTrades(rows, n, notional, maxHold, ts, p, us, q, |ts|);
    SameTrades(rows, n, notional, maxHold, us, q, ts, p, |us|);
    assert ts[..|ts|] == ts && us[..|us|] == us;
    if p.Some? {
      NextEntryNoLater(rows, n, notional, maxHold, ts, p, us, q, |ts|);
    }
    if q.Some? {
      NextEntryNoLater(rows, n, notional, maxHold, us, q, ts, p, |ts|);
    }
  }

  lemma ReplayIsUnique(rows: seq<Row>, notional: real, maxHold: int,
      ts: seq<Trade>, p: Option<Position>, us: seq<Trade>, q: Option<Position>)
    requires IsReplay(rows, notional, maxHold, ts, p) && IsReplay(rows, notional, maxHold, us, q)
    ensures ts == us && p == q
  {
    hide Replayed;
    PrefixIsUnique(rows, |rows|, notional, maxHold, ts, p, us, q);
  }

  // If the pass does not close a zero entry on row n, no replay does.
  lemma NoOtherZeroEntry(rows: seq<Row>, n: nat, notional: real, maxHold: int, ts: seq<Trade>, p: Option<Position>)
    requires Replayed(rows, n, n, notional, maxHold, ts, p)
    requires n < |rows|
             && (p.Some? ==> p.value.entry != 0.0 || ExitOn(p.value, rows[n], p.value.bars + 1, maxHold) == None)
    ensures forall us, q :: !ClosesZeroEntry(rows, n, notional, maxHold, us, q)
  {
    hide Replayed, ExitOn;
    forall us, q ensures !ClosesZeroEntry(rows, n, notional, maxHold, us, q) {
      if ClosesZeroEntry(rows, n, notional, maxHold, us, q) {
        PrefixIsUnique(rows, n, notional, maxHold, ts, p, us, Some(q));
      }
    }
  }

  // ------------------------------------------------- trades, on the rows alone

  // Entered on row e: trend, VWAP, volume, taker delta and volatility all in order.
  predicate EntersOn(r: Row) {
    && r.ema50 < r.ema20 < r.close && r.vwap < r.close
    && r.rvol * 10.0 >= 9.0 && r.delta * 50.0 > 1.0
    && 1.0 <= r.volatility * 1000.0 && r.volatility * 100.0 <= 8.0
  }

  // A row strictly inside a holding touches neither stop nor target, leaves time, and
  // closes on or above its average.
  predicate KeepsHolding(r: Row, stop: real, target: real, age: int, maxHold: int) {
    r.low > stop && r.high < target && age < maxHold && r.close >= r.ema20
  }

  lemma SignalIsEntry(r: Row)
    ensures BuySignal(r) <==> EntersOn(r)
  {}

  lemma HeldRows(rows: seq<Row>, e: nat, n: nat, maxHold: int)
    requires Held(rows, e, n, maxHold)
    ensures e >= 200 && EntersOn(rows[e])
    ensures forall j :: e < j <= n ==>
              KeepsHolding(rows[j], Enter(rows[e], e).stop, Enter(rows[e], e).takeProfit, j - e, maxHold)
  {
    forall j | e < j <= n
      ensures KeepsHolding(rows[j], Enter(rows[e], e).stop, Enter(rows[e], e).takeProfit, j - e, maxHold)
    {
      assert ExitOn(Enter(rows[e], e), rows[j], j - e, maxHold) == None;
    }
  }

  // The levels of an entry: 1.4 ranges below, but above zero, and 2.4 ranges above.
  predicate LevelsOf(r: Row, entry: real, stop: real, target: real) {
    && entry == r.close && stop * 1000000.0 >= 1.0
    && (stop == entry - 1.4 * r.atr || (stop * 1000000.0 == 1.0 && entry - 1.4 * r.atr < stop))
    && target - entry == 2.4 * r.atr
  }

  // A trade on the rows alone: its entry, the rows it was held through, and the reason
  // and price of its exit, the stop before the target, the clock before the average.
  lemma TradeOnRows(rows: seq<Row>, notional: real, maxHold: int, t: Trade)
    requires IsTrade(rows, notional, maxHold, t)
    ensures var e, x := rows[t.entryIndex], rows[t.exitIndex];
            var age := t.exitIndex - t.entryIndex;
            var stopped, reached := x.low <= t.stop, x.high >= t.takeProfit;
            var late, weak := age >= maxHold, x.close < x.ema20;
            && t.entryIndex >= 200 && EntersOn(e) && LevelsOf(e, t.entry, t.stop, t.takeProfit)
            && (forall j :: t.entryIndex < j < t.exitIndex ==>
                  KeepsHolding(rows[j], t.stop, t.takeProfit, j - t.entryIndex, maxHold))
            && (stopped || reached || late || weak)
            && (t.reason == StopHit <==> stopped)
            && (t.reason == TakeProfitHit <==> !stopped && reached)
            && (t.reason == TimeUp <==> !stopped && !reached && late)
            && (t.reason == Ema20Loss <==> !stopped && !reached && !late)
            && t.exit == (if stopped then t.stop else if reached then t.takeProfit else x.close)
            && t.entryTime == e.openTime && t.exitTime == x.openTime && t.bars == age
            && t.returnPct * t.entry == (t.exit - t.entry) * 100.0 && t.pnl * 100.0 == notional * t.returnPct
  {
    HeldRows(rows, t.entryIndex, t.exitIndex - 1, maxHold);
    var why := ExitOn(Enter(rows[t.entryIndex], t.entryIndex).(bars := t.bars), rows[t.exitIndex], t.bars, maxHold);
    assert why.Some?;
    assert t.entry * t.returnPct == (t.exit - t.entry) * 100.0 by { ReturnIsShare(t.entry, t.exit); }
  }

  lemma ReturnIsShare(entry: real, exit: real)
    requires entry != 0.0
    ensures entry * ReturnPct(entry, exit) == (exit - entry) * 100.0
  {
    var share := (exit - entry) / entry;
    assert share * entry == exit - entry;
  }

  // A position that is still open, and no entry missed: every row past the warm-up that
  // enters lies inside a trade or the open position.
  lemma OpenOnRows(rows: seq<Row>, notional: real, maxHold: int, trades: seq<Trade>, open: Option<Position>)
    requires IsReplay(rows, notional, maxHold, trades, open)
    ensures open.Some? ==>
              var p, e := open.value, open.value.entryIndex;
              && 200 <= e < |rows| && EntersOn(rows[e]) && LevelsOf(rows[e], p.entry, p.stop, p.takeProfit)
              && p.bars == |rows| - 1 - e
              && forall j :: e < j < |rows| ==> KeepsHolding(rows[j], p.stop, p.takeProfit, j - e, maxHold)
    ensures forall i :: 200 <= i < |rows| && EntersOn(rows[i]) ==>
              (exists k :: 0 <= k < |trades| && trades[k].entryIndex <= i < trades[k].exitIndex)
              || (open.Some? && open.value.entryIndex <= i)
  {
    hide IsTrade, BuySignal, EntersOn, ExitOn;
    if open.Some? { HeldRows(rows, open.value.entryIndex, |rows| - 1, maxHold); }
    forall i | 200 <= i < |rows| && EntersOn(rows[i])
      ensures (exists k :: 0 <= k < |trades| && trades[k].entryIndex <= i < trades[k].exitIndex)
              || (open.Some? && open.value.entryIndex <= i)
    {
      SignalIsEntry(rows[i]);
      assert Covered(i, trades, open);
    }
  }

  // The scanner's buckets on the rows alone; a row that enters is always watched as well
  // when its VWAP is not negative.
  lemma BucketOnRows(latest: Row, open: Option<Position>)
    ensures var gates := [latest.close > latest.ema20, latest.ema20 >= latest.ema50,
                          latest.close * 200.0 >= latest.vwap * 199.0,
                          latest.rvol * 10.0 >= 7.0, latest.delta * 20.0 > -1.0];
            var bucket := ClassifyLatest(latest, open);
            && (bucket == InTrade <==> open.Some?)
            && (bucket == BuyBucket <==> open.None? && EntersOn(latest))
            && (bucket == WatchBucket <==>
                  open.None? && !EntersOn(latest)
                  && exists i, j, k :: 0 <= i < j < k < 5 && gates[i] && gates[j] && gates[k])
            && (EntersOn(latest) && latest.vwap >= 0.0 ==> gates[0] && gates[1] && gates[2] && gates[3] && gates[4])
  {
    SignalIsEntry(latest);
    var gates := [latest.close > latest.ema20, latest.ema20 >= latest.ema50,
                  latest.close * 200.0 >= latest.vwap * 199.0,
                  latest.rvol * 10.0 >= 7.0, latest.delta * 20.0 > -1.0];
    ThreeOfFive(gates);
    assert WatchSignal(latest) <==>
           Points(gates[0]) + Points(gates[1]) + Points(gates[2]) + Points(gates[3]) + Points(gates[4]) >= 3;
  }

  lemma ThreeOfFive(gates: seq<bool>)
    requires |gates| == 5
    ensures Points(gates[0]) + Points(gates[1]) + Points(gates[2]) + Points(gates[3]) + Points(gates[4]) >= 3 <==>
            exists i, j, k :: 0 <= i < j < k < 5 && gates[i] && gates[j] && gates[k]
  {}

}
