// The ATR mean-reversion position machine: one signal per bar, then one update of
// the position.  Numbers a row does not hold (missing, NaN or infinite) are None.
module AtrStrategy {
  import opened Wrappers

  datatype Row = Row(
    close: Option<real>, low: Option<real>, atr14: Option<real>,
    riskAmount: Option<real>, stopSeed: Option<real>,
    slowAtrKnown: bool, rejectH0: bool, drift: bool)

  // A whole frame is judged by its length, a single row by its slow ATR.
  datatype Indicators = Frame(length: nat, last: Row) | Single(last: Row)

  datatype Config = Config(atrMultiplier: real, minCandles: nat)

  datatype SignalName = Buy | Hold | SellStop | SellTp1 | SellTp2 | SellTp3

  datatype Signal = Signal(
    close: real, rejectH0: bool, drift: bool, entrySignal: bool,
    stop: real, tp1: real, tp2: real, tp3: real, name: SignalName)

  datatype Position = Position(
    size: real, triggered: bool, entry: real, risk: real, order: real, stop: real, taken: int)

  const FLAT := Position(0.0, false, 0.0, 0.0, 0.0, 0.0, 0)

  function Finite(v: Option<real>, default: real): real {
    if v.Some? then v.value else default
  }

  function Close(r: Row): real { Finite(r.close, 0.0) }

  function RiskAmount(r: Row, c: Config): real {
    Finite(r.riskAmount, Finite(r.atr14, 0.0) * c.atrMultiplier)
  }

  function StopSeed(r: Row, c: Config): real {
    Finite(r.stopSeed, Finite(r.low, 0.0) - RiskAmount(r, c))
  }

  predicate Warming(ind: Indicators, c: Config) {
    match ind
    case Frame(length, _) => length < c.minCandles
    case Single(row) => !row.slowAtrKnown
  }

  // The k-th target; all targets are zero when entry or risk is not positive.
  function TpLevel(entry: real, risk: real, k: nat): real {
    if entry <= 0.0 || risk <= 0.0 then 0.0 else entry + k as real * risk
  }

  function Generate(ind: Indicators, p: Position, c: Config): Signal {
    var row := ind.last;
    var close, risk, seed := Close(row), RiskAmount(row, c), StopSeed(row, c);
    var stop := if p.size > 0.0 then Max(p.stop, seed) else seed;
    if Warming(ind, c) then WithLevels(row, false, stop, p.entry, p.risk, Hold)
    else if p.size <= 0.0 then
      if (p.triggered || row.rejectH0) && row.drift
      then WithLevels(row, true, seed, close, risk, Buy)
      else WithLevels(row, false, stop, p.entry, p.risk, Hold)
    else
      var name :=
        if close <= stop then SellStop
        else if p.taken == 0 && close >= TpLevel(p.entry, p.risk, 1) then SellTp1
        else if p.taken == 1 && close >= TpLevel(p.entry, p.risk, 2) then SellTp2
        else if p.taken == 2 && close >= TpLevel(p.entry, p.risk, 3) then SellTp3
        else Hold;
      WithLevels(row, false, stop, p.entry, p.risk, name)
  }

  function WithLevels(row: Row, entrySignal: bool, stop: real, entry: real, risk: real, name: SignalName): Signal {
    Signal(Close(row), row.rejectH0, row.drift, entrySignal, stop,
           TpLevel(entry, risk, 1), TpLevel(entry, risk, 2), TpLevel(entry, risk, 3), name)
  }

  function Update(s: Signal, p: Position, orderSize: real): Position {
    match s.name
    case Buy => Position(orderSize, false, s.close, Max(0.0, s.close - s.stop), orderSize, s.stop, 0)
    case Hold =>
      p.(triggered := p.triggered || (s.rejectH0 && p.size <= 0.0),
         stop := if p.size > 0.0 then Max(p.stop, s.stop) else p.stop)
    case SellStop => FLAT
    case SellTp1 => AfterPartial(s, p, 1)
    case SellTp2 => AfterPartial(s, p, 2)
    case SellTp3 => FLAT
  }

  // A third of the order is sold; a position that is used up is reset.
  function AfterPartial(s: Signal, p: Position, taken: int): Position {
    var size := Max(0.0, p.size - p.order / 3.0);
    if size <= 0.0 then FLAT else p.(size := size, taken := taken, stop := Max(p.stop, s.stop))
  }

  class AtrMeanReversionState {
    var positionSize: real
    var entrySignalTriggered: bool
    var initialEntryPrice: real
    var riskAmount: real
    var initialOrderSize: real
    var stopLoss: real
    var tpTakenCount: int

    function Value(): Position
      reads this
    {
      Position(positionSize, entrySignalTriggered, initialEntryPrice, riskAmount, initialOrderSize, stopLoss,
          tpTakenCount)
    }

    constructor ()
      ensures Value() == FLAT
    {
      positionSize, entrySignalTriggered, initialEntryPrice, riskAmount := 0.0, false, 0.0, 0.0;
      initialOrderSize, stopLoss, tpTakenCount := 0.0, 0.0, 0;
    }

    method ResetTrade()
      modifies this
      ensures Value() == FLAT
    {
      positionSize, entrySignalTriggered, initialEntryPrice, riskAmount := 0.0, false, 0.0, 0.0;
      initialOrderSize, stopLoss, tpTakenCount := 0.0, 0.0, 0;
    }

    method UpdatePositionState(s: Signal, orderSize: real)
      modifies this
      ensures Value() == Update(s, old(Value()), orderSize)
    {
      if s.name == Buy {
        positionSize := orderSize;
        entrySignalTriggered := false;
        initialEntryPrice := s.close;
        riskAmount := Max(0.0, s.close - s.stop);
        initialOrderSize := orderSize;
        stopLoss := s.stop;
        tpTakenCount := 0;
        return;
      }
      if s.name == Hold {
        if s.rejectH0 && positionSize <= 0.0 {
          entrySignalTriggered := true;
        }
        if positionSize > 0.0 {
          stopLoss := Max(stopLoss, s.stop);
        }
        return;
      }
      if s.name == SellStop {
        ResetTrade();
        return;
      }
      if s.name == SellTp1 {
        positionSize := Max(0.0, positionSize - initialOrderSize / 3.0);
        tpTakenCount := 1;
      } else if s.name == SellTp2 {
        positionSize := Max(0.0, positionSize - initialOrderSize / 3.0);
        tpTakenCount := 2;
      } else {
        ResetTrade();
        return;
      }
      stopLoss := Max(stopLoss, s.stop);
      if positionSize <= 0.0 {
        ResetTrade();
      }
    }
  }

  // ------------------------------------------------------------------- runs

  // One bar: what the indicators show and the order size used if it buys.
  datatype Bar = Bar(ind: Indicators, orderSize: real)

  function Run(bars: seq<Bar>, c: Config): Position {
    if bars == [] then FLAT
    else
      var p := Run(bars[..|bars| - 1], c);
      var b := bars[|bars| - 1];
      Update(Generate(b.ind, p, c), p, b.orderSize)
  }

  // The signal that bar i produced.
  function SignalAt(bars: seq<Bar>, i: nat, c: Config): Signal
    requires i < |bars|
  {
    Generate(bars[i].ind, Run(bars[..i], c), c)
  }

  // Bar i acted on the position and left it flat.
  predicate Flattens(bars: seq<Bar>, i: nat, c: Config)
    requires i < |bars|
  {
    SignalAt(bars, i, c).name != Hold && Run(bars[..i + 1], c).size <= 0.0
  }

  // The last bar that flattened, or -1.
  function LastFlattening(bars: seq<Bar>, c: Config): (f: int)
    ensures -1 <= f < |bars|
  {
    if bars == [] then -1
    else if Flattens(bars, |bars| - 1, c) then |bars| - 1
    else LastFlattening(bars[..|bars| - 1], c)
  }

  predicate RejectedBetween(bars: seq<Bar>, from: int, to: int) {
    exists j :: from < j < to && 0 <= j < |bars| && bars[j].ind.last.rejectH0
  }

  lemma {:induction false} LastFlatteningIsLast(bars: seq<Bar>, c: Config)
    ensures var f := LastFlattening(bars, c);
            (f >= 0 ==> Flattens(bars, f, c)) && forall i :: f < i < |bars| ==> !Flattens(bars, i, c)
    decreases |bars|
  {
    hide Generate, Update;
    if bars != [] {
      var p := bars[..|bars| - 1];
      LastFlatteningIsLast(p, c);
      forall i | 0 <= i < |p| ensures Flattens(p, i, c) == Flattens(bars, i, c) {
        assert p[..i] == bars[..i] && p[..i + 1] == bars[..i + 1];
      }
    }
  }

  lemma RejectedByNow(bars: seq<Bar>, f: int)
    requires bars != [] && -1 <= f < |bars| - 1
    ensures var n := |bars| - 1;
            RejectedBetween(bars, f, n + 1) <==> RejectedBetween(bars[..n], f, n) || bars[n].ind.last.rejectH0
  {
    var n := |bars| - 1;
    var before := bars[..n];
    if RejectedBetween(before, f, n) {
      var j :| f < j < n && 0 <= j < |before| && before[j].ind.last.rejectH0;
      assert bars[j] == before[j];
    }
    if RejectedBetween(bars, f, n + 1) && !bars[n].ind.last.rejectH0 {
      var j :| f < j < n + 1 && 0 <= j < |bars| && bars[j].ind.last.rejectH0;
      assert bars[j] == before[j];
    }
    if bars[n].ind.last.rejectH0 { assert f < n < n + 1; }
  }

  // What one bar does to the latch and the size.
  lemma LatchStep(ind: Indicators, p: Position, orderSize: real, c: Config)
    requires p.size > 0.0 ==> !p.triggered
    ensures var s := Generate(ind, p, c);
            var q := Update(s, p, orderSize);
            && (s.name == Hold ==> q.size == p.size)
            && (s.name == Hold ==> (q.triggered <==> p.triggered || (p.size <= 0.0 && ind.last.rejectH0)))
            && (s.name != Hold ==> !q.triggered)
            && (s.name == Buy <==> p.size <= 0.0 && !Warming(ind, c) && ind.last.drift
                                   && (p.triggered || ind.last.rejectH0))
            && (p.size <= 0.0 ==> s.name in {Buy, Hold})
  {
    hide Warming, TpLevel, StopSeed, RiskAmount;
  }

  // While flat, the latch says whether a bar since the last flattening rejected
  // H0, warm-up bars included; while open it is clear.
  lemma {:induction false} LatchIsHistory(bars: seq<Bar>, c: Config)
    ensures var p := Run(bars, c);
            p.triggered <==> p.size <= 0.0 && RejectedBetween(bars, LastFlattening(bars, c), |bars|)
    decreases |bars|
  {
    hide Generate, Update, RejectedBetween;
    if bars == [] {
      NothingRejected(bars, -1);
    } else {
      var n := |bars| - 1;
      var before, b := bars[..n], bars[n];
      LatchIsHistory(before, c);
      assert bars[..n + 1] == bars;
      RejectedByNow(bars, LastFlattening(before, c));
      NothingRejected(bars, n);
      LatchStep(b.ind, Run(before, c), b.orderSize, c);
    }
  }

  lemma NothingRejected(bars: seq<Bar>, f: int)
    requires f >= |bars| - 1
    ensures !RejectedBetween(bars, f, |bars|)
  {}

  // A bar buys exactly when the position is flat, warm-up is over, drift is
  // confirmed on this bar, and some bar after the last flattening, this one
  // included, rejected H0.
  lemma BuyIsItsHistory(bars: seq<Bar>, n: nat, c: Config)
    requires n < |bars|
    ensures SignalAt(bars, n, c).name == Buy <==>
              && Run(bars[..n], c).size <= 0.0
              && (match bars[n].ind
                  case Frame(length, _) => length >= c.minCandles
                  case Single(row) => row.slowAtrKnown)
              && bars[n].ind.last.drift
              && RejectedBetween(bars, LastFlattening(bars[..n], c), n + 1)
  {
    hide Generate, Update, RejectedBetween;
    var upTo := bars[..n + 1];
    assert upTo[..n] == bars[..n];
    LatchIsHistory(bars[..n], c);
    LatchStep(bars[n].ind, Run(bars[..n], c), bars[n].orderSize, c);
    RejectedByNow(upTo, LastFlattening(bars[..n], c));
    SameRejections(bars, n, LastFlattening(bars[..n], c));
  }

  lemma SameRejections(bars: seq<Bar>, n: nat, f: int)
    requires n < |bars|
    ensures RejectedBetween(bars[..n + 1], f, n + 1) == RejectedBetween(bars, f, n + 1)
  {
    var upTo := bars[..n + 1];
    if RejectedBetween(upTo, f, n + 1) {
      var j :| f < j < n + 1 && 0 <= j < |upTo| && upTo[j].ind.last.rejectH0;
      assert bars[j] == upTo[j];
    }
    if RejectedBetween(bars, f, n + 1) {
      var j :| f < j < n + 1 && 0 <= j < |bars| && bars[j].ind.last.rejectH0;
      assert upTo[j] == bars[j];
    }
  }

  // ---------------------------------------------------------------- the ladder

  // Sell signals since the last buy.
  function Sells(bars: seq<Bar>, c: Config): nat {
    if bars == [] then 0
    else
      var before := Sells(bars[..|bars| - 1], c);
      match SignalAt(bars, |bars| - 1, c).name
      case Buy => 0
      case Hold => before
      case _ => before + 1
  }

  // What the sells since the last buy have earned, each at its bar's close.
  function Realised(bars: seq<Bar>, c: Config): real {
    if bars == [] then 0.0
    else
      var n := |bars| - 1;
      RealisedNext(SignalAt(bars, n, c), Run(bars[..n], c), Run(bars, c), Realised(bars[..n], c))
  }

  // The realised profit of the trade after one more signal.
  function RealisedNext(s: Signal, p: Position, q: Position, was: real): real {
    match s.name
    case Buy => 0.0
    case Hold => was
    case _ => was + (p.size - q.size) * (s.close - p.entry)
  }

  // An open position has sold a third of its order per target taken.
  predicate OnLadder(p: Position) {
    p.size > 0.0 ==> p.order > 0.0 && 0 <= p.taken <= 2 && p.size == p.order * (3 - p.taken) as real / 3.0
  }

  // The next target is the k-th and this bar's close reached it.
  predicate TakesTarget(s: Signal, p: Position, q: Position, k: nat) {
    && p.size > 0.0 && p.taken == k - 1 && s.close >= TpLevel(p.entry, p.risk, k)
    && if k == 3 then q == FLAT
       else q == p.(size := p.size - p.order / 3.0, taken := k, stop := q.stop) && q.stop >= p.stop && q.size > 0.0
  }

  // What a signal means for the position it was generated from.
  predicate Moves(s: Signal, p: Position, q: Position) {
    match s.name
    case Buy => p.size <= 0.0 && q.order == q.size && q.taken == 0
    case Hold => q == p.(stop := q.stop, triggered := q.triggered) && q.stop >= p.stop
    case SellStop => p.size > 0.0 && q == FLAT
    case SellTp1 => TakesTarget(s, p, q, 1)
    case SellTp2 => TakesTarget(s, p, q, 2)
    case SellTp3 => TakesTarget(s, p, q, 3)
  }

  // What one bar does to an open position.
  lemma LadderStep(ind: Indicators, p: Position, orderSize: real, c: Config)
    requires OnLadder(p)
    ensures var s := Generate(ind, p, c);
            var q := Update(s, p, orderSize);
            OnLadder(q) && Moves(s, p, q)
  {
    hide Warming, TpLevel, StopSeed, RiskAmount;
  }

  lemma {:induction false} EveryRunIsOnLadder(bars: seq<Bar>, c: Config)
    ensures OnLadder(Run(bars, c))
    ensures Run(bars, c).size > 0.0 ==> Sells(bars, c) == Run(bars, c).taken
    ensures Sells(bars, c) <= 3
    decreases |bars|
  {
    hide Generate, Update, TpLevel;
    if bars != [] {
      var before, b := bars[..|bars| - 1], bars[|bars| - 1];
      EveryRunIsOnLadder(before, c);
      LadderStep(b.ind, Run(before, c), b.orderSize, c);
    }
  }

  // In every reachable open position the size is the unsold share of the order,
  // the stop only rises, targets are taken in order, and no trade sells more than
  // three times.
  lemma LadderIsOrderly(bars: seq<Bar>, c: Config)
    requires bars != []
    ensures var n := |bars| - 1;
            var p, q := Run(bars[..n], c), Run(bars, c);
            && (q.size > 0.0 ==> 0 <= q.taken <= 2 && q.size == q.order * (3 - q.taken) as real / 3.0)
            && (p.size > 0.0 && q.size > 0.0 ==>
                 q.stop >= p.stop && q.entry == p.entry && p.taken <= q.taken <= p.taken + 1)
            && (p.size > 0.0 && q.size <= 0.0 ==> SignalAt(bars, n, c).name in {SellStop, SellTp3})
            && Sells(bars, c) <= 3
  {
    hide Generate, Update, TpLevel, Sells;
    var n := |bars| - 1;
    EveryRunIsOnLadder(bars[..n], c);
    EveryRunIsOnLadder(bars, c);
    LadderStep(bars[n].ind, Run(bars[..n], c), bars[n].orderSize, c);
  }

  // What a sale at the k-th target gains per unit at least: k risks above a positive
  // entry; without one the targets are zero, and zero lies above the entry.
  function Gain(entry: real, risk: real, k: int): real {
    if entry > 0.0 then Units(risk, k) else -entry
  }

  // The same, summed over the first k targets.
  function Gains(entry: real, risk: real, k: int): real {
    if entry > 0.0 then Units(risk, Rungs(k)) else Units(-entry, k)
  }

  function Units(unit: real, k: int): real {
    unit * k as real
  }

  function Times(a: real, b: real): real {
    a * b
  }

  // The k-th triangular number, for the three rungs there are.
  function Rungs(k: int): int {
    if k == 1 then 1 else if k == 2 then 3 else if k == 3 then 6 else 0
  }

  // What selling a third of the order at the given close earns.
  function Earned(p: Position, close: real): real {
    Times(p.order / 3.0, close - p.entry)
  }

  // The stop of an open position lies at most its risk below the entry.
  predicate RiskCovers(p: Position) {
    p.size > 0.0 ==> p.risk >= 0.0 && p.entry - p.stop <= p.risk
  }

  lemma RiskStep(ind: Indicators, p: Position, orderSize: real, c: Config)
    requires OnLadder(p) && RiskCovers(p)
    ensures RiskCovers(Update(Generate(ind, p, c), p, orderSize))
    ensures var s := Generate(ind, p, c);
            s.name in {SellTp1, SellTp2, SellTp3} ==>
              p.size > 0.0 && s.close > p.stop && s.close >= TpLevel(p.entry, p.risk, p.taken + 1)
  {
    hide Warming, TpLevel, StopSeed, RiskAmount;
  }

  lemma {:induction false} EveryRunCoversItsRisk(bars: seq<Bar>, c: Config)
    ensures RiskCovers(Run(bars, c))
    decreases |bars|
  {
    hide Generate, Update;
    if bars != [] {
      var before, b := bars[..|bars| - 1], bars[|bars| - 1];
      EveryRunCoversItsRisk(before, c);
      EveryRunIsOnLadder(before, c);
      RiskStep(b.ind, Run(before, c), b.orderSize, c);
    }
  }

  // A close above the stop that reached its target gained at least the target's gain.
  lemma TargetGains(p: Position, close: real, k: nat)
    requires p.size > 0.0 && RiskCovers(p) && k > 0 && close > p.stop && close >= TpLevel(p.entry, p.risk, k)
    ensures close - p.entry >= Gain(p.entry, p.risk, k) >= 0.0
  {
    if p.risk > 0.0 {
      assert k as real * p.risk == Units(p.risk, k) > 0.0;
    } else {
      assert Units(0.0, k) == 0.0;
    }
  }

  // No take-profit of any run sells below the entry, whatever entry and risk are.
  lemma TakeProfitsNeverLose(bars: seq<Bar>, c: Config)
    requires bars != [] && SignalAt(bars, |bars| - 1, c).name in {SellTp1, SellTp2, SellTp3}
    ensures var n := |bars| - 1;
            var p, close := Run(bars[..n], c), SignalAt(bars, n, c).close;
            p.size > 0.0 && close >= p.entry && close - p.entry >= Gain(p.entry, p.risk, p.taken + 1)
  {
    hide Generate, Update, TpLevel, Gain;
    var n := |bars| - 1;
    EveryRunIsOnLadder(bars[..n], c);
    EveryRunCoversItsRisk(bars[..n], c);
    RiskStep(bars[n].ind, Run(bars[..n], c), bars[n].orderSize, c);
    var p := Run(bars[..n], c);
    TargetGains(p, SignalAt(bars, n, c).close, p.taken + 1);
  }

  // What an open position has banked after its taken targets.
  predicate Banked(p: Position, realised: real) {
    p.size > 0.0 ==> realised >= Times(p.order / 3.0, Gains(p.entry, p.risk, p.taken))
  }

  lemma TimesMonotone(a: real, x: real, y: real)
    requires a >= 0.0 && x >= y
    ensures Times(a, x) >= Times(a, y)
  {
    assert a * (x - y) >= 0.0;
  }

  lemma TimesAdd(a: real, x: real, y: real)
    ensures Times(a, x) + Times(a, y) == Times(a, x + y)
  {}

  lemma UnitsAdd(unit: real, j: int, k: int)
    ensures Units(unit, j) + Units(unit, k) == Units(unit, j + k)
  {
    var a, b := j as real, k as real;
    assert (j + k) as real == a + b && unit * (a + b) == unit * a + unit * b;
  }

  lemma GainsAdd(entry: real, risk: real, k: int)
    requires 1 <= k <= 3
    ensures Gains(entry, risk, k - 1) + Gain(entry, risk, k) == Gains(entry, risk, k)
  {
    hide Units;
    UnitsAdd(risk, Rungs(k - 1), k);
    UnitsAdd(-entry, k - 1, 1);
    assert Units(-entry, 1) == -entry by { OneUnit(-entry); }
  }

  lemma OneUnit(unit: real)
    ensures Units(unit, 1) == unit && Units(unit, 0) == 0.0
  {}

  // Taking the k-th target banks the gains of one target more.
  lemma BankTarget(p: Position, was: real, close: real, k: nat)
    requires p.size > 0.0 && p.order > 0.0 && p.taken == k - 1 && 1 <= k <= 3 && Banked(p, was)
    requires close - p.entry >= Gain(p.entry, p.risk, k)
    ensures was + Earned(p, close) >= Times(p.order / 3.0, Gains(p.entry, p.risk, k))
  {
    hide Times, Gain, Gains;
    var third := p.order / 3.0;
    TimesMonotone(third, close - p.entry, Gain(p.entry, p.risk, k));
    TimesAdd(third, Gains(p.entry, p.risk, k - 1), Gain(p.entry, p.risk, k));
    GainsAdd(p.entry, p.risk, k);
  }

  // One signal keeps the bank; the third target leaves all six units, or three entries, in it.
  lemma BankMove(s: Signal, p: Position, q: Position, was: real)
    requires OnLadder(p) && Moves(s, p, q) && Banked(p, was)
    requires s.name in {SellTp1, SellTp2, SellTp3} ==> s.close - p.entry >= Gain(p.entry, p.risk, p.taken + 1)
    ensures Banked(q, RealisedNext(s, p, q, was))
    ensures s.name == SellTp3 ==> RealisedNext(s, p, q, was) >= Times(p.order / 3.0, Gains(p.entry, p.risk, 3))
  {
    hide TpLevel, Gain, Gains, Earned;
    if s.name in {SellTp1, SellTp2, SellTp3} {
      SoldThird(s, p, q, was);
      BankTarget(p, was, s.close, p.taken + 1);
    } else if s.name == Buy {
      NothingBanked(q);
    }
  }

  lemma SoldThird(s: Signal, p: Position, q: Position, was: real)
    requires OnLadder(p) && Moves(s, p, q) && s.name in {SellTp1, SellTp2, SellTp3}
    ensures RealisedNext(s, p, q, was) == was + Earned(p, s.close)
  {
    assert p.size - q.size == p.order / 3.0;
  }

  lemma NothingBanked(p: Position)
    requires p.taken == 0
    ensures Banked(p, 0.0)
  {
    assert Gains(p.entry, p.risk, 0) == 0.0;
  }

  lemma BankStep(bars: seq<Bar>, c: Config)
    requires bars != [] && Banked(Run(bars[..|bars| - 1], c), Realised(bars[..|bars| - 1], c))
    ensures Banked(Run(bars, c), Realised(bars, c))
    ensures var p := Run(bars[..|bars| - 1], c);
            SignalAt(bars, |bars| - 1, c).name == SellTp3 ==>
              Realised(bars, c) >= Times(p.order / 3.0, Gains(p.entry, p.risk, 3))
  {
    hide Generate, Update, Banked, Moves, RealisedNext, OnLadder, Gain, Gains;
    var n := |bars| - 1;
    var p := Run(bars[..n], c);
    EveryRunIsOnLadder(bars[..n], c);
    LadderStep(bars[n].ind, p, bars[n].orderSize, c);
    if SignalAt(bars, n, c).name in {SellTp1, SellTp2, SellTp3} { TakeProfitsNeverLose(bars, c); }
    BankMove(SignalAt(bars, n, c), p, Run(bars, c), Realised(bars[..n], c));
  }

  // In every reachable open position the taken targets have realised at least their gains.
  lemma {:induction false} EveryRunIsBanked(bars: seq<Bar>, c: Config)
    ensures Banked(Run(bars, c), Realised(bars, c))
    decreases |bars|
  {
    hide Generate, Update;
    if bars != [] {
      EveryRunIsBanked(bars[..|bars| - 1], c);
      BankStep(bars, c);
    }
  }

  // The last of the bars completes the ladder of the position that was open after n of them.
  predicate Completes(bars: seq<Bar>, n: nat, c: Config) {
    && n < |bars|
    && (forall i :: n <= i < |bars| ==> SignalAt(bars, i, c).name !in {Buy, SellStop})
    && SignalAt(bars, |bars| - 1, c).name == SellTp3
    && forall i :: n <= i < |bars| - 1 ==> SignalAt(bars, i, c).name != SellTp3
  }

  // While it stays open a position keeps its entry, risk and order.
  lemma {:induction false} TradeIsFrozen(bars: seq<Bar>, n: nat, m: nat, c: Config)
    requires n <= m <= |bars| && Run(bars[..n], c).size > 0.0
    requires forall i :: n <= i < m ==> SignalAt(bars, i, c).name in {Hold, SellTp1, SellTp2}
    ensures var p, q := Run(bars[..n], c), Run(bars[..m], c);
            q.size > 0.0 && q.entry == p.entry && q.risk == p.risk && q.order == p.order
    decreases m - n
  {
    hide Generate, Update, TpLevel;
    if n < m {
      TradeIsFrozen(bars, n, m - 1, c);
      var before, b := bars[..m - 1], bars[m - 1];
      assert bars[..m][..m - 1] == before;
      assert SignalAt(bars, m - 1, c).name in {Hold, SellTp1, SellTp2};
      EveryRunIsOnLadder(before, c);
      LadderStep(b.ind, Run(before, c), b.orderSize, c);
    }
  }

  // Twice the risk is earned on the whole order.
  lemma FullGains(p: Position)
    ensures p.entry > 0.0 ==> Times(p.order / 3.0, Gains(p.entry, p.risk, 3)) == 2.0 * p.risk * p.order
    ensures p.entry <= 0.0 ==> Times(p.order / 3.0, Gains(p.entry, p.risk, 3)) == -p.entry * p.order
  {
    var third := p.order / 3.0;
    assert Units(p.risk, 6) == 6.0 * p.risk && Units(-p.entry, 3) == 3.0 * -p.entry;
    assert third * (6.0 * p.risk) == 6.0 * third * p.risk;
    assert third * (3.0 * -p.entry) == 3.0 * third * -p.entry;
  }

  // The entry is positive, or lies twice the risk below zero.
  predicate TargetsCoverTwoRisks(p: Position) {
    p.entry > 0.0 || -p.entry >= 2.0 * p.risk
  }

  lemma CompletedLadderEarns(bars: seq<Bar>, n: nat, c: Config)
    requires Completes(bars, n, c) && Run(bars[..n], c).size > 0.0 && TargetsCoverTwoRisks(Run(bars[..n], c))
    ensures Realised(bars, c) >= 2.0 * Run(bars[..n], c).risk * Run(bars[..n], c).order
  {
    hide Generate, Update, Run, Realised, Gains;
    var m, p := |bars| - 1, Run(bars[..n], c);
    OnlyThirdCloses(bars, n, c);
    TradeIsFrozen(bars, n, m, c);
    EveryRunIsBanked(bars[..m], c);
    EveryRunIsOnLadder(bars[..m], c);
    BankStep(bars, c);
    FullGains(Run(bars[..m], c));
    if p.entry <= 0.0 { Scale(2.0 * p.risk, -p.entry, p.order); }
  }

  lemma Scale(x: real, y: real, order: real)
    requires x <= y && order >= 0.0
    ensures x * order <= y * order
  {}

  lemma OnlyThirdCloses(bars: seq<Bar>, n: nat, c: Config)
    requires Completes(bars, n, c)
    ensures forall i :: n <= i < |bars| - 1 ==> SignalAt(bars, i, c).name in {Hold, SellTp1, SellTp2}
  {
    hide Generate, Run;
    forall i | n <= i < |bars| - 1 ensures SignalAt(bars, i, c).name in {Hold, SellTp1, SellTp2} {
      assert SignalAt(bars, i, c).name !in {Buy, SellStop} && SignalAt(bars, i, c).name != SellTp3;
    }
  }

  // A bar that closes at zero and leaves the stop where it is.
  function ZeroBar(stop: real): Bar {
    Bar(Single(Row(Some(0.0), None, None, None, Some(stop), true, false, false)), 0.0)
  }

  // With no positive entry and a stop below zero a zero close takes the next target.
  lemma ZeroStep(p: Position, c: Config)
    requires OnLadder(p) && p.size > 0.0 && p.entry <= 0.0 && p.stop < 0.0
    ensures var b := ZeroBar(p.stop);
            var s := Generate(b.ind, p, c);
            var q := Update(s, p, b.orderSize);
            && s.close == 0.0
            && s.name == (if p.taken == 0 then SellTp1 else if p.taken == 1 then SellTp2 else SellTp3)
            && (p.taken < 2 ==> q == p.(size := p.size - p.order / 3.0, taken := p.taken + 1) && q.size > 0.0)
            && (p.taken == 2 ==> q == FLAT)
  {}

  lemma ZeroBarAppended(bars: seq<Bar>, c: Config)
    requires var p := Run(bars, c); p.size > 0.0 && p.entry <= 0.0 && p.stop < 0.0
    ensures var p := Run(bars, c);
            var more := bars + [ZeroBar(p.stop)];
            var q, s := Run(more, c), SignalAt(more, |bars|, c);
            && s.name == (if p.taken == 0 then SellTp1 else if p.taken == 1 then SellTp2 else SellTp3)
            && (p.taken < 2 ==> q == p.(size := p.size - p.order / 3.0, taken := p.taken + 1) && q.size > 0.0)
            && Realised(more, c) == Realised(bars, c) + Earned(p, 0.0)
  {
    hide Generate, Update, Earned;
    var p := Run(bars, c);
    var more := bars + [ZeroBar(p.stop)];
    assert more[..|bars|] == bars;
    EveryRunIsOnLadder(bars, c);
    ZeroStep(p, c);
    LadderStep(ZeroBar(p.stop).ind, p, 0.0, c);
    SoldThird(SignalAt(more, |bars|, c), p, Run(more, c), Realised(bars, c));
  }

  lemma SameSignal(bars: seq<Bar>, more: seq<Bar>, i: nat, c: Config)
    requires bars <= more && i < |bars|
    ensures SignalAt(more, i, c) == SignalAt(bars, i, c)
  {
    assert more[..i] == bars[..i];
  }

  // Right after a buy without a positive entry, three closes at zero complete the
  // ladder and earn the entry's distance from zero.
  lemma ZeroClosesComplete(bars: seq<Bar>, c: Config) returns (more: seq<Bar>)
    requires var p := Run(bars, c);
             p.size > 0.0 && p.taken == 0 && p.entry <= 0.0 && p.stop < 0.0 && Realised(bars, c) == 0.0
    ensures bars <= more && Completes(more, |bars|, c)
    ensures Realised(more, c) == -Run(bars, c).entry * Run(bars, c).order
  {
    hide Generate, Update, Run, Realised, Earned;
    var p := Run(bars, c);
    var one := bars + [ZeroBar(p.stop)];
    var two := one + [ZeroBar(p.stop)];
    more := two + [ZeroBar(p.stop)];
    ZeroBarAppended(bars, c);
    ZeroBarAppended(one, c);
    ZeroBarAppended(two, c);
    SameSignal(one, more, |bars|, c);
    SameSignal(two, more, |one|, c);
    SameEarned(p, Run(one, c), Run(two, c));
    ThreeThirds(p);
    forall i | |bars| <= i < |more|
      ensures SignalAt(more, i, c).name !in {Buy, SellStop} && (i < |more| - 1 ==> SignalAt(more, i, c).name != SellTp3)
    {
      assert i == |bars| || i == |one| || i == |two|;
    }
  }

  lemma SameEarned(p: Position, q: Position, r: Position)
    requires p.order == q.order == r.order && p.entry == q.entry == r.entry
    ensures Earned(p, 0.0) == Earned(q, 0.0) == Earned(r, 0.0)
  {}

  lemma ThreeThirds(p: Position)
    ensures 3.0 * Earned(p, 0.0) == -p.entry * p.order
  {}

  // A buy whose order is open, in a run that ends with it.
  predicate JustBought(bars: seq<Bar>, c: Config) {
    bars != [] && SignalAt(bars, |bars| - 1, c).name == Buy && Run(bars, c).size > 0.0
  }

  lemma AfterBuy(bars: seq<Bar>, c: Config)
    requires JustBought(bars, c)
    ensures var p := Run(bars, c);
            && p.taken == 0 && p.order > 0.0 && p.risk == Max(0.0, p.entry - p.stop) && Realised(bars, c) == 0.0
  {
    hide Generate, Update;
    var n := |bars| - 1;
    BuyOpens(SignalAt(bars, n, c), Run(bars[..n], c), bars[n].orderSize);
  }

  lemma BuyOpens(s: Signal, p: Position, orderSize: real)
    requires s.name == Buy
    ensures Update(s, p, orderSize) ==
            Position(orderSize, false, s.close, Max(0.0, s.close - s.stop), orderSize, s.stop, 0)
  {}

  // Every way of completing a trade's ladder earns at least twice its risk on the
  // whole order exactly when, at the buy, the entry is positive or lies at least twice
  // the risk below zero.
  lemma FullLadderEarnsTwoRisks(bars: seq<Bar>, c: Config)
    requires JustBought(bars, c)
    ensures var p := Run(bars, c);
            (forall more :: bars <= more && Completes(more, |bars|, c) ==> Realised(more, c) >= 2.0 * p.risk * p.order)
            <==> TargetsCoverTwoRisks(p)
  {
    hide Generate, Update, Run, Realised, Completes;
    var p := Run(bars, c);
    AfterBuy(bars, c);
    if TargetsCoverTwoRisks(p) {
      forall more | bars <= more && Completes(more, |bars|, c) ensures Realised(more, c) >= 2.0 * p.risk * p.order {
        assert more[..|bars|] == bars;
        CompletedLadderEarns(more, |bars|, c);
      }
    } else {
      var more := ZeroClosesComplete(bars, c);
      StrictScale(-p.entry, 2.0 * p.risk, p.order);
    }
  }

  lemma StrictScale(x: real, y: real, order: real)
    requires x < y && order > 0.0
    ensures x * order < y * order
  {}

  // The gap is reachable: a row without a close is bought at zero with a stop at -10,
  // and three closes at zero complete the ladder for nothing, on a risk of ten.
  lemma UnpricedBuyEarnsNothing(c: Config) returns (bars: seq<Bar>)
    ensures Completes(bars, 1, c) && Run(bars[..1], c) == Position(1.0, false, 0.0, 10.0, 1.0, -10.0, 0)
    ensures Realised(bars, c) == 0.0
  {
    var buy := Bar(Single(Row(None, None, None, None, Some(-10.0), true, true, true)), 1.0);
    assert [buy][..0] == [];
    hide Completes, Realised;
    AfterBuy([buy], c);
    bars := ZeroClosesComplete([buy], c);
    assert bars[..1] == [buy];
  }

  // Without real risk every target is zero: in every run a warmed-up bar takes the
  // next target exactly when it closes above the stop and not below zero, and it never
  // sells below the entry.
  lemma NoRiskSellsAtAnyPrice(bars: seq<Bar>, c: Config, ind: Indicators)
    requires var p := Run(bars, c); p.size > 0.0 && (p.entry <= 0.0 || p.risk <= 0.0)
    requires !Warming(ind, c)
    ensures var p, s := Run(bars, c), Generate(ind, Run(bars, c), c);
            && (s.name in {SellTp1, SellTp2, SellTp3} <==>
                  Close(ind.last) > Max(p.stop, StopSeed(ind.last, c)) && Close(ind.last) >= 0.0)
            && (s.name in {SellTp1, SellTp2, SellTp3} ==> s.close >= p.entry)
  {
    hide Update, Warming, StopSeed, RiskAmount;
    EveryRunIsOnLadder(bars, c);
    EveryRunCoversItsRisk(bars, c);
  }

  // The targets used after a buy lie above the ones the buy signal announced, the
  // k-th by k times the distance from low to close: the announcement measures risk
  // from the low, the position from the close.
  lemma AnnouncedTargetsAreLower(ind: Indicators, p: Position, c: Config, orderSize: real, k: nat)
    requires Generate(ind, p, c).name == Buy && 1 <= k <= 3
    requires Close(ind.last) > 0.0 && RiskAmount(ind.last, c) > 0.0
    requires ind.last.low.Some? && ind.last.low.value < Close(ind.last) + RiskAmount(ind.last, c)
    requires StopSeed(ind.last, c) == ind.last.low.value - RiskAmount(ind.last, c)
    ensures var s := Generate(ind, p, c);
            var q := Update(s, p, orderSize);
            var announced := if k == 1 then s.tp1 else if k == 2 then s.tp2 else s.tp3;
            TpLevel(q.entry, q.risk, k) - announced == k as real * (Close(ind.last) - ind.last.low.value)
  {
    var s := Generate(ind, p, c);
    assert s.stop == StopSeed(ind.last, c);
  }

  // Generate and update, bar by bar, on a new position object: what is proved of runs
  // holds of it.
  method Trade(bars: seq<Bar>, c: Config) returns (state: AtrMeanReversionState)
    ensures fresh(state) && state.Value() == Run(bars, c)
    ensures OnLadder(state.Value()) && RiskCovers(state.Value()) && Banked(state.Value(), Realised(bars, c))
  {
    hide Generate, Update, OnLadder, RiskCovers, Banked, Realised;
    state := new AtrMeanReversionState();
    for n := 0 to |bars|
      invariant fresh(state) && state.Value() == Run(bars[..n], c)
    {
      assert bars[..n + 1][..n] == bars[..n];
      state.UpdatePositionState(Generate(bars[n].ind, state.Value(), c), bars[n].orderSize);
    }
    assert bars[..|bars|] == bars;
    EveryRunIsOnLadder(bars, c);
    EveryRunCoversItsRisk(bars, c);
    EveryRunIsBanked(bars, c);
  }

  // ------------------------------------------------------- what a bar sells

  // What a bar with indicators does to an open position: nothing while warming up;
  // otherwise the stop comes first, then the next target.
  lemma SellsExactly(ind: Indicators, p: Position, c: Config)
    requires p.size > 0.0 && 0 <= p.taken <= 2
    ensures var s, row := Generate(ind, p, c), ind.last;
            var close, stop := Finite(row.close, 0.0), Max(p.stop, StopSeed(row, c));
            var target := if p.entry > 0.0 && p.risk > 0.0 then p.entry + (p.taken + 1) as real * p.risk else 0.0;
            var warm := match ind case Frame(n, _) => n >= c.minCandles case Single(r) => r.slowAtrKnown;
            && s.close == close && s.stop == stop
            && (s.name == SellStop <==> warm && close <= stop)
            && (s.name == SellTp1 <==> warm && close > stop && close >= target && p.taken == 0)
            && (s.name == SellTp2 <==> warm && close > stop && close >= target && p.taken == 1)
            && (s.name == SellTp3 <==> warm && close > stop && close >= target && p.taken == 2)
            && s.name != Buy
  {
    hide StopSeed;
  }

  // Over every run a bar sells an open position exactly like that.
  lemma RunSellsExactly(bars: seq<Bar>, n: nat, c: Config)
    requires n < |bars| && Run(bars[..n], c).size > 0.0
    ensures var p, s, row := Run(bars[..n], c), SignalAt(bars, n, c), bars[n].ind.last;
            var close, stop := Finite(row.close, 0.0), Max(p.stop, StopSeed(row, c));
            var target := if p.entry > 0.0 && p.risk > 0.0 then p.entry + (p.taken + 1) as real * p.risk else 0.0;
            var warm := match bars[n].ind case Frame(m, _) => m >= c.minCandles case Single(r) => r.slowAtrKnown;
            && (s.name == SellStop <==> warm && close <= stop)
            && (s.name in {SellTp1, SellTp2, SellTp3} <==> warm && close > stop && close >= target)
            && (s.name == SellTp1 ==> p.taken == 0) && (s.name == SellTp2 ==> p.taken == 1)
            && (s.name == SellTp3 ==> p.taken == 2)
  {
    hide Generate, Run, StopSeed, Warming, TpLevel;
    EveryRunIsOnLadder(bars[..n], c);
    SellsExactly(bars[n].ind, Run(bars[..n], c), c);
  }

  // So after a warmed-up bar a position that is still open has closed above its stop.
  lemma OpenPositionsClosedAboveStop(bars: seq<Bar>, n: nat, c: Config)
    requires n < |bars| && Run(bars[..n], c).size > 0.0 && Run(bars[..n + 1], c).size > 0.0
    requires match bars[n].ind case Frame(m, _) => m >= c.minCandles case Single(r) => r.slowAtrKnown
    ensures Finite(bars[n].ind.last.close, 0.0) > Run(bars[..n + 1], c).stop
  {
    hide Generate, StopSeed, Warming, TpLevel;
    assert bars[..n + 1][..n] == bars[..n];
    var p := Run(bars[..n], c);
    EveryRunIsOnLadder(bars[..n], c);
    SellsExactly(bars[n].ind, p, c);
    LadderStep(bars[n].ind, p, bars[n].orderSize, c);
  }

  // What a buy opens.
  lemma BuyOpensAtClose(bars: seq<Bar>, n: nat, c: Config)
    requires n < |bars| && SignalAt(bars, n, c).name == Buy
    ensures var q, row := Run(bars[..n + 1], c), bars[n].ind.last;
            var close, seed := Finite(row.close, 0.0), StopSeed(row, c);
            && q == Position(bars[n].orderSize, false, close, Max(0.0, close - seed), bars[n].orderSize, seed, 0)
            && var s := SignalAt(bars, n, c);
               var risk := RiskAmount(row, c);
               && s.entrySignal && s.stop == seed
               && (close > 0.0 && risk > 0.0 ==>
                     s.tp1 == close + risk && s.tp2 == close + 2.0 * risk && s.tp3 == close + 3.0 * risk)
  {
    assert bars[..n + 1][..n] == bars[..n];
    hide Run, StopSeed, RiskAmount, Warming;
    var p, s := Run(bars[..n], c), SignalAt(bars, n, c);
    assert Run(bars[..n + 1], c) == Update(s, p, bars[n].orderSize) by { RunStep(bars, n, c); }
  }

  lemma RunStep(bars: seq<Bar>, n: nat, c: Config)
    requires n < |bars|
    ensures Run(bars[..n + 1], c) == Update(SignalAt(bars, n, c), Run(bars[..n], c), bars[n].orderSize)
  {
    assert bars[..n + 1][..n] == bars[..n];
  }

  // The seed a row stands for: the column when it is finite, else the low less the risk
  // column, else the low less the multiple of the range; missing numbers count as zero.
  lemma SeedIsRiskBelowLow(r: Row, c: Config)
    ensures r.stopSeed.Some? ==> StopSeed(r, c) == r.stopSeed.value
    ensures r.stopSeed.None? && r.low.Some? && r.riskAmount.Some? ==> r.low.value - StopSeed(r, c) == r.riskAmount.value
    ensures r.stopSeed.None? && r.low.Some? && r.riskAmount.None? && r.atr14.Some? ==>
              r.low.value - StopSeed(r, c) == r.atr14.value * c.atrMultiplier
    ensures r.stopSeed.None? && r.low.None? && r.riskAmount.Some? ==> -StopSeed(r, c) == r.riskAmount.value
    ensures r.stopSeed.None? && r.low.None? && r.riskAmount.None? && r.atr14.Some? ==>
              -StopSeed(r, c) == r.atr14.value * c.atrMultiplier
    ensures r.stopSeed.None? && r.riskAmount.None? && r.atr14.None? ==>
              StopSeed(r, c) == if r.low.Some? then r.low.value else 0.0
    ensures RiskAmount(r, c) == if r.riskAmount.Some? then r.riskAmount.value
                                else if r.atr14.Some? then r.atr14.value * c.atrMultiplier else 0.0
  {}

  // ------------------------------------------------------------ the ratchet

  // stop is the highest seed of the bars from the buy at bar b on.
  predicate HighestSeed(stop: real, bars: seq<Bar>, b: nat, c: Config)
    requires b < |bars|
  {
    && (forall i :: b <= i < |bars| ==> StopSeed(bars[i].ind.last, c) <= stop)
    && exists i :: b <= i < |bars| && StopSeed(bars[i].ind.last, c) == stop
  }

  lemma StopStep(ind: Indicators, p: Position, orderSize: real, c: Config)
    requires p.size > 0.0 && Update(Generate(ind, p, c), p, orderSize).size > 0.0
    ensures Generate(ind, p, c).name in {Hold, SellTp1, SellTp2} ==>
              Update(Generate(ind, p, c), p, orderSize).stop == Max(p.stop, StopSeed(ind.last, c))
  {
    hide Warming, TpLevel, StopSeed, RiskAmount;
  }

  // While a position stays open its stop is the highest seed since its buy, bars of the
  // warm-up included.
  lemma {:induction false} StopIsHighestSeed(bars: seq<Bar>, b: nat, c: Config)
    requires b < |bars| && SignalAt(bars, b, c).name == Buy
    requires Run(bars[..b + 1], c).size > 0.0
    requires forall i :: b < i < |bars| ==> SignalAt(bars, i, c).name in {Hold, SellTp1, SellTp2}
    ensures Run(bars, c).size > 0.0 && HighestSeed(Run(bars, c).stop, bars, b, c)
    decreases |bars|
  {
    hide Generate, Update, StopSeed, TpLevel;
    var n := |bars| - 1;
    assert bars[..n + 1] == bars;
    if n == b {
      BuyOpensAtClose(bars, b, c);
    } else {
      var p := bars[..n];
      assert p[..b] == bars[..b] && p[..b + 1] == bars[..b + 1];
      forall i | b < i < n ensures SignalAt(p, i, c).name in {Hold, SellTp1, SellTp2} {
        assert p[..i] == bars[..i] && SignalAt(bars, i, c) == SignalAt(p, i, c);
      }
      StopIsHighestSeed(p, b, c);
      EveryRunIsOnLadder(p, c);
      LadderStep(bars[n].ind, Run(p, c), bars[n].orderSize, c);
      assert SignalAt(bars, n, c).name in {Hold, SellTp1, SellTp2};
      StopStep(bars[n].ind, Run(p, c), bars[n].orderSize, c);
      SeedsGrow(Run(p, c).stop, bars, b, c);
    }
  }

  lemma SeedsGrow(stop: real, bars: seq<Bar>, b: nat, c: Config)
    requires b < |bars| - 1 && HighestSeed(stop, bars[..|bars| - 1], b, c)
    ensures HighestSeed(Max(stop, StopSeed(bars[|bars| - 1].ind.last, c)), bars, b, c)
  {
    hide StopSeed;
    var p := bars[..|bars| - 1];
    var i :| b <= i < |p| && StopSeed(p[i].ind.last, c) == stop;
    assert bars[i] == p[i];
    assert forall j :: b <= j < |p| ==> bars[j] == p[j];
  }

  // What every signal carries, whatever it says: the stop that applies, the levels of the
  // position or of the buy, and the row's own columns.
  lemma SignalCarries(ind: Indicators, p: Position, c: Config)
    ensures var s, row := Generate(ind, p, c), ind.last;
            var entry := if s.name == Buy then Finite(row.close, 0.0) else p.entry;
            var risk := if s.name == Buy then RiskAmount(row, c) else p.risk;
            && s.close == Finite(row.close, 0.0) && s.rejectH0 == row.rejectH0 && s.drift == row.drift
            && (s.entrySignal <==> s.name == Buy)
            && s.stop == (if p.size > 0.0 then Max(p.stop, StopSeed(row, c)) else StopSeed(row, c))
            && (entry > 0.0 && risk > 0.0 ==>
                  s.tp1 == entry + risk && s.tp2 == entry + 2.0 * risk && s.tp3 == entry + 3.0 * risk)
            && (entry <= 0.0 || risk <= 0.0 ==> s.tp1 == 0.0 && s.tp2 == 0.0 && s.tp3 == 0.0)
  {
    hide StopSeed, RiskAmount, Warming;
  }

}
