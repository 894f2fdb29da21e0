// The production stability framework: risk locks, the shutdown latch, in-flight
// operations and the dedupe window, as the state each call leaves behind.
module Stability {
  import opened Wrappers

  datatype RiskState =
    | Clear | MaxTradesDay | ConsecutiveLossLock | DailyLossLock | DailyProfitLock
    | PortfolioExposureLock | SymbolExposureLock | GlobalDrawdownLock | ProtectionRequired

  datatype Status = Ready | Halted | RiskLocked

  datatype Protection = UnknownProtection | Protected | Unprotected | NoPosition

  datatype Alert =
    | NoAlert | Locked(why: RiskState) | ProtectionAlert | ProtectionMissing
    | HeartbeatMissing | HeartbeatStale | HeartbeatHalted
    | MarketDataMissing | MarketDataStale | ClockDrift | InvalidEquity
    | SignalQueueHigh | DbQueueHigh | ShutdownAlert | RestartAlert | FrameworkOk
    | PositionMismatch | OrdersUnknown

  datatype Action =
    | NoAction | Restart | HaltAndRestart | Halt | Throttle
    | BlockNewEntries | HaltAndProtect | HaltAndReconcile | Resume

  datatype DataState = DataUnknown | DataMissing | DataOld | DataDrifting | DataOk

  datatype Reconciliation = NotRun | Mismatch | ReconUnprotected | OpenOrderUnknown | Reconciled

  datatype Portfolio = PortfolioUnknown | EquityInvalid | TotalExceeded | SymbolExceeded | PortfolioOk

  datatype Operation = Entry | Partial | Exit | StopOrder | Emergency | UnknownOperation(name: string)

  const OPERATIONS := {Entry, Partial, Exit, StopOrder, Emergency}

  datatype Config = Config(
    heartbeatStaleSeconds: real, heartbeatHaltSeconds: real,
    signalQueueMax: int, dbQueueMax: int, queueWarningPct: real,
    maxDailyLossPct: real, maxDailyProfit: real, maxTradesDay: int, maxConsecutiveLosses: int,
    maxDrawdownPct: real, maxPortfolioPct: real, maxSymbolPct: real,
    marketDataStaleSeconds: real, clockDriftSeconds: real, requireProtection: bool)

  datatype State = State(
    status: Status, risk: RiskState, protection: Protection, day: int,
    pnl: real, trades: int, losses: int, peak: Option<real>,
    restart: bool, shutdown: bool, alert: Alert, action: Action,
    inFlight: map<Operation, bool>, processed: seq<string>,
    data: DataState, reconciliation: Reconciliation, portfolio: Portfolio)

  const IDLE: map<Operation, bool> :=
    map[Entry := false, Partial := false, Exit := false, StopOrder := false, Emergency := false]

  function Fresh(day: int): State {
    State(Ready, Clear, UnknownProtection, day, 0.0, 0, 0, None, false, false, NoAlert, NoAction, IDLE, [],
          DataUnknown, NotRun, PortfolioUnknown)
  }

  // ----------------------------------------------------------- building blocks

  function Raise(s: State, alert: Alert, action: Action): State {
    s.(alert := alert, action := action)
  }

  // Taking a lock overwrites whatever lock is held.
  function Lock(s: State, why: RiskState): State {
    Raise(s.(risk := why, status := RiskLocked), Locked(why), BlockNewEntries)
  }

  predicate Resettable(r: RiskState) {
    r in {MaxTradesDay, ConsecutiveLossLock, DailyLossLock, DailyProfitLock, PortfolioExposureLock, SymbolExposureLock}
  }

  function ResetDay(s: State, day: int): State {
    if s.day == day then s
    else
      var t := s.(day := day, pnl := 0.0, trades := 0, losses := 0);
      if Resettable(s.risk) then t.(risk := Clear, status := Ready) else t
  }

  predicate Busy(s: State) {
    exists op :: op in s.inFlight && s.inFlight[op]
  }

  // No daily loss limit without a positive equity.
  predicate DailyLossReached(c: Config, pnl: real, equity: Option<real>) {
    equity.Some? && equity.value > 0.0 && pnl <= -(equity.value * (c.maxDailyLossPct / 100.0))
  }

  const WINDOW: nat := 2000

  // One key offered to the dedupe window.
  function Mark(window: seq<string>, key: string): seq<string> {
    if key in window then window else LastN(window + [key], WINDOW)
  }

  // ---------------------------------------------------------------- the calls

  function CanOpenTrade(c: Config, s: State, equity: Option<real>): (State, bool) {
    if s.shutdown || Busy(s) || s.risk != Clear then (s, false)
    else if s.trades >= c.maxTradesDay then (Lock(s, MaxTradesDay), false)
    else if s.losses >= c.maxConsecutiveLosses then (Lock(s, ConsecutiveLossLock), false)
    else if DailyLossReached(c, s.pnl, equity) then (Lock(s, DailyLossLock), false)
    else if s.pnl >= c.maxDailyProfit then (Lock(s, DailyProfitLock), false)
    else (s, true)
  }

  function NewPeak(peak: Option<real>, equity: real): real {
    if peak.Some? && peak.value != 0.0 then Max(equity, peak.value) else equity
  }

  function DrawdownPct(peak: real, equity: real): real {
    if peak == 0.0 then 0.0 else (peak - equity) / peak * 100.0
  }

  function Book(s: State, pnl: real): State {
    s.(trades := s.trades + 1, pnl := s.pnl + pnl, losses := if pnl < 0.0 then s.losses + 1 else 0)
  }

  function TrackDrawdown(c: Config, s: State, equity: real): State {
    var peak := NewPeak(s.peak, equity);
    var t := s.(peak := Some(peak));
    if DrawdownPct(peak, equity) >= c.maxDrawdownPct then Lock(t, GlobalDrawdownLock) else t
  }

  function RecordTradeResult(c: Config, s: State, pnl: real, equity: Option<real>, day: int): State {
    var t := Book(ResetDay(s, day), pnl);
    CanOpenTrade(c, if equity.Some? then TrackDrawdown(c, t, equity.value) else t, equity).0
  }

  function MarkProtection(c: Config, s: State, verified: bool): State {
    var t := s.(protection := if verified then Protected else Unprotected);
    if !verified && c.requireProtection
    then Raise(t.(shutdown := true, status := Halted, risk := ProtectionRequired), ProtectionAlert, HaltAndProtect)
    else t
  }

  function StartupCheck(c: Config, s: State, hasPosition: bool, verified: bool): (State, bool) {
    var t := s.(status := Ready,
                protection := if verified then Protected else if hasPosition then Unprotected else NoPosition);
    if hasPosition && c.requireProtection && !verified
    then (t.(status := Halted, shutdown := true, risk := ProtectionRequired), false)
    else (t, true)
  }

  function Heartbeat(s: State, day: int): State {
    var t := ResetDay(s, day);
    if t.status == Halted || t.status == RiskLocked then t else t.(status := Ready)
  }

  function DetectStale(c: Config, s: State, lastSeen: Option<real>, now: real): (State, bool) {
    if lastSeen.None? then (Raise(s.(restart := true), HeartbeatMissing, Restart), true)
    else
      var age := Max(0.0, now - lastSeen.value);
      if age > c.heartbeatHaltSeconds then
        (Raise(s.(restart := true, shutdown := true, status := Halted), HeartbeatHalted, HaltAndRestart), true)
      else if age > c.heartbeatStaleSeconds then
        (Raise(s.(restart := true), HeartbeatStale, Restart), true)
      else (s.(restart := false, action := NoAction), false)
  }

  function FeedUnhealthy(c: Config, s: State, lastMarket: Option<real>, exchangeTime: Option<real>, now: real)
    : (State, bool)
  {
    if lastMarket.None? then (Raise(s.(data := DataMissing), MarketDataMissing, Halt), true)
    else if Max(0.0, now - lastMarket.value) > c.marketDataStaleSeconds then
      (Raise(s.(data := DataOld), MarketDataStale, Halt), true)
    else if exchangeTime.Some? && Max(now - exchangeTime.value, exchangeTime.value - now) > c.clockDriftSeconds then
      (Raise(s.(data := DataDrifting), ClockDrift, Throttle), true)
    else (s.(data := DataOk), false)
  }

  predicate QueueNearCapacity(c: Config, depth: int, max: int) {
    max > 0 && (if depth > 0 then depth else 0) >= (max as real * c.queueWarningPct).Floor
  }

  datatype Supervision = Supervision(
    lastSeen: Option<real>, lastMarket: Option<real>, exchangeTime: Option<real>,
    signalQueue: int, dbQueue: int, hasPosition: bool, protectionVerified: bool, now: real)

  predicate HeartbeatAlert(a: Alert) {
    a in {HeartbeatStale, HeartbeatHalted, HeartbeatMissing}
  }

  // The heartbeat alert looked at may be an old one: a fresh heartbeat clears the
  // restart flag but not the alert.
  function EvaluateSupervision(c: Config, s: State, x: Supervision): State {
    var t := DetectStale(c, s, x.lastSeen, x.now).0;
    if HeartbeatAlert(t.alert) then t
    else
      var fed := if x.lastMarket.Some? || x.exchangeTime.Some?
                 then FeedUnhealthy(c, t, x.lastMarket, x.exchangeTime, x.now) else (t, false);
      if fed.1 then fed.0
      else
        var u := fed.0;
        if x.hasPosition && c.requireProtection && !x.protectionVerified then
          Raise(MarkProtection(c, u, false), ProtectionMissing, HaltAndProtect)
        else if QueueNearCapacity(c, x.signalQueue, c.signalQueueMax) then Raise(u, SignalQueueHigh, Throttle)
        else if QueueNearCapacity(c, x.dbQueue, c.dbQueueMax) then Raise(u, DbQueueHigh, Throttle)
        else if u.shutdown then Raise(u, ShutdownAlert, Halt)
        else if u.restart then Raise(u, if u.alert == NoAlert then RestartAlert else u.alert, Restart)
        else Raise(u, FrameworkOk, NoAction)
  }

  function Reconcile(c: Config, s: State, exchangeQty: real, localQty: real, protectionVerified: bool,
      ordersVerified: bool)
    : (State, Action)
  {
    var gap := Max(exchangeQty - localQty, localQty - exchangeQty);
    if gap > 0.00000001 then
      (Raise(s.(restart := true, reconciliation := Mismatch), PositionMismatch, HaltAndReconcile), HaltAndReconcile)
    else if exchangeQty > 0.0 && c.requireProtection && !protectionVerified then
      (MarkProtection(c, s, false).(reconciliation := ReconUnprotected), HaltAndProtect)
    else if exchangeQty > 0.0 && !ordersVerified then
      (Raise(s.(reconciliation := OpenOrderUnknown), OrdersUnknown, HaltAndReconcile), HaltAndReconcile)
    else (s.(reconciliation := Reconciled), Resume)
  }

  // Which exposure lock a check takes, if any.
  function ExposureBreach(c: Config, equity: real, total: real, symbol: real): Option<RiskState> {
    if equity <= 0.0 then None
    else if total / equity * 100.0 > c.maxPortfolioPct then Some(PortfolioExposureLock)
    else if symbol / equity * 100.0 > c.maxSymbolPct then Some(SymbolExposureLock)
    else None
  }

  function CheckExposure(c: Config, s: State, equity: real, total: real, symbol: real): (State, bool) {
    if equity <= 0.0 then (Raise(s.(portfolio := EquityInvalid), InvalidEquity, Halt), false)
    else
      var why := ExposureBreach(c, equity, total, symbol);
      if why.Some? then
        var portfolio := if why.value == PortfolioExposureLock then TotalExceeded else SymbolExceeded;
        (Lock(s.(portfolio := portfolio), why.value), false)
      else (s.(portfolio := PortfolioOk), true)
  }

  function BeginOperation(s: State, op: Operation, key: Option<string>): (State, bool) {
    if op !in s.inFlight || (key.Some? && key.value in s.processed) || Busy(s) then (s, false)
    else
      (s.(inFlight := s.inFlight[op := true],
          processed := if key.Some? then Mark(s.processed, key.value) else s.processed), true)
  }

  function EndOperation(s: State, op: Operation): State {
    if op in s.inFlight then s.(inFlight := s.inFlight[op := false]) else s
  }

  // ------------------------------------------------------------------- runs

  datatype Call =
    | StartupCheckCall(hasPosition: bool, verified: bool)
    | HeartbeatCall(day: int)
    | DetectStaleCall(lastSeen: Option<real>, now: real)
    | SuperviseCall(x: Supervision)
    | ReconcileCall(exchangeQty: real, localQty: real, protectionVerified: bool, ordersVerified: bool)
    | FeedCall(lastMarket: Option<real>, exchangeTime: Option<real>, at: real)
    | ExposureCall(equity: real, total: real, symbol: real)
    | CanOpenCall(account: Option<real>)
    | BeginCall(op: Operation, key: Option<string>)
    | EndCall(ended: Operation)
    | RecordCall(pnl: real, accountAfter: Option<real>, onDay: int)
    | ProtectionCall(isVerified: bool)
    | MarkCall(event: string)

  function Apply(c: Config, s: State, call: Call): State {
    match call
    case StartupCheckCall(hasPosition, verified) => StartupCheck(c, s, hasPosition, verified).0
    case HeartbeatCall(day) => Heartbeat(s, day)
    case DetectStaleCall(lastSeen, now) => DetectStale(c, s, lastSeen, now).0
    case SuperviseCall(x) => EvaluateSupervision(c, s, x)
    case ReconcileCall(e, l, p, o) => Reconcile(c, s, e, l, p, o).0
    case FeedCall(m, e, now) => FeedUnhealthy(c, s, m, e, now).0
    case ExposureCall(equity, total, symbol) => CheckExposure(c, s, equity, total, symbol).0
    case CanOpenCall(equity) => CanOpenTrade(c, s, equity).0
    case BeginCall(op, key) => BeginOperation(s, op, key).0
    case EndCall(op) => EndOperation(s, op)
    case RecordCall(pnl, equity, day) => RecordTradeResult(c, s, pnl, equity, day)
    case ProtectionCall(verified) => MarkProtection(c, s, verified)
    case MarkCall(key) => s.(processed := Mark(s.processed, key))
  }

  function Run(c: Config, s: State, calls: seq<Call>): State {
    if calls == [] then s else Apply(c, Run(c, s, calls[..|calls| - 1]), calls[|calls| - 1])
  }

  // ------------------------------------------------- what the long calls leave alone

  // Same day, counters, peak, operations and events; shutdown is never cleared.
  predicate SameLedger(s: State, t: State) {
    && t.trades == s.trades && t.losses == s.losses && t.inFlight == s.inFlight && t.processed == s.processed
    && t.day == s.day && t.pnl == s.pnl && t.peak == s.peak
    && (s.shutdown ==> t.shutdown)
  }

  lemma StaleFrame(c: Config, s: State, lastSeen: Option<real>, now: real)
    ensures SameLedger(s, DetectStale(c, s, lastSeen, now).0) && DetectStale(c, s, lastSeen, now).0.risk == s.risk
  {}

  lemma FeedFrame(c: Config, s: State, lastMarket: Option<real>, exchangeTime: Option<real>, now: real)
    ensures SameLedger(s, FeedUnhealthy(c, s, lastMarket, exchangeTime, now).0)
    ensures FeedUnhealthy(c, s, lastMarket, exchangeTime, now).0.risk == s.risk
  {}

  lemma SupervisionFrame(c: Config, s: State, x: Supervision)
    ensures SameLedger(s, EvaluateSupervision(c, s, x))
    ensures EvaluateSupervision(c, s, x).risk in {s.risk, ProtectionRequired}
  {
    hide QueueNearCapacity, DetectStale, FeedUnhealthy, HeartbeatAlert;
    StaleFrame(c, s, x.lastSeen, x.now);
    FeedFrame(c, DetectStale(c, s, x.lastSeen, x.now).0, x.lastMarket, x.exchangeTime, x.now);
  }

  lemma ProtectionFrame(c: Config, s: State, verified: bool)
    ensures SameLedger(s, MarkProtection(c, s, verified))
  {}

  lemma StartupFrame(c: Config, s: State, hasPosition: bool, verified: bool)
    ensures SameLedger(s, StartupCheck(c, s, hasPosition, verified).0)
  {}

  lemma ReconcileFrame(c: Config, s: State, exchangeQty: real, localQty: real, protectionVerified: bool,
      ordersVerified: bool)
    ensures SameLedger(s, Reconcile(c, s, exchangeQty, localQty, protectionVerified, ordersVerified).0)
  {
    hide MarkProtection;
    ProtectionFrame(c, s, false);
  }

  lemma ExposureFrame(c: Config, s: State, equity: real, total: real, symbol: real)
    ensures SameLedger(s, CheckExposure(c, s, equity, total, symbol).0)
  {
    hide ExposureBreach;
  }

  // Calls other than records, heartbeats, operations and marks.
  predicate LeavesLedger(call: Call) {
    !call.RecordCall? && !call.HeartbeatCall? && !call.BeginCall? && !call.EndCall? && !call.MarkCall?
  }

  lemma LedgerFrame(c: Config, s: State, call: Call)
    requires LeavesLedger(call)
    ensures SameLedger(s, Apply(c, s, call))
  {
    hide EvaluateSupervision, CanOpenTrade, DetectStale, FeedUnhealthy, CheckExposure, StartupCheck, Reconcile,
      MarkProtection, SameLedger;
    match call
    case ProtectionCall(verified) => ProtectionFrame(c, s, verified);
    case StartupCheckCall(p, verified) => StartupFrame(c, s, p, verified);
    case ReconcileCall(e, l, p, o) => ReconcileFrame(c, s, e, l, p, o);
    case ExposureCall(equity, total, symbol) => ExposureFrame(c, s, equity, total, symbol);
    case SuperviseCall(x) => SupervisionFrame(c, s, x);
    case CanOpenCall(equity) => CanOpenFrame(c, s, equity);
    case DetectStaleCall(lastSeen, now) => StaleFrame(c, s, lastSeen, now);
    case FeedCall(m, e, now) => FeedFrame(c, s, m, e, now);
  }

  // A heartbeat may start a new day, whose counters are zero.
  lemma HeartbeatFrame(s: State, day: int)
    ensures var t := Heartbeat(s, day);
            && t.inFlight == s.inFlight && t.processed == s.processed && t.shutdown == s.shutdown
            && (t.trades == s.trades || t.trades == 0) && (t.losses == s.losses || t.losses == 0)
  {}

  lemma CanOpenFrame(c: Config, s: State, equity: Option<real>)
    ensures SameLedger(s, CanOpenTrade(c, s, equity).0)
    ensures s.risk != Clear ==> CanOpenTrade(c, s, equity) == (s, false)
  {
    hide Busy, DailyLossReached;
  }

  lemma DrawdownFrame(c: Config, s: State, equity: real)
    ensures SameLedger(s.(peak := Some(NewPeak(s.peak, equity))), TrackDrawdown(c, s, equity))
    ensures TrackDrawdown(c, s, equity).risk in {s.risk, GlobalDrawdownLock}
  {
    hide NewPeak, DrawdownPct;
  }

  lemma RecordFrame(c: Config, s: State, pnl: real, equity: Option<real>, day: int)
    ensures var d, t := ResetDay(s, day), RecordTradeResult(c, s, pnl, equity, day);
            && t.trades == d.trades + 1 && t.losses == (if pnl < 0.0 then d.losses + 1 else 0)
            && t.inFlight == s.inFlight && t.processed == s.processed && (s.shutdown ==> t.shutdown) && t.day == day
            && (Persistent(s.risk) ==> Persistent(t.risk))
            && t.pnl == d.pnl + pnl && t.peak == if equity.Some? then Some(NewPeak(s.peak, equity.value)) else s.peak
  {
    hide CanOpenTrade, TrackDrawdown, NewPeak;
    var t := Book(ResetDay(s, day), pnl);
    CanOpenFrame(c, t, equity);
    if equity.Some? {
      DrawdownFrame(c, t, equity.value);
      CanOpenFrame(c, TrackDrawdown(c, t, equity.value), equity);
    }
  }

  // ----------------------------------------------------------- shutdown latch

  lemma {:induction false} ShutdownIsForever(c: Config, s: State, calls: seq<Call>, equity: Option<real>)
    requires s.shutdown
    ensures Run(c, s, calls).shutdown && !CanOpenTrade(c, Run(c, s, calls), equity).1
    decreases |calls|
  {
    hide Apply, Busy, DailyLossReached;
    if calls != [] {
      ShutdownIsForever(c, s, calls[..|calls| - 1], equity);
      ShutdownStep(c, Run(c, s, calls[..|calls| - 1]), calls[|calls| - 1]);
    }
  }

  lemma ShutdownStep(c: Config, s: State, call: Call)
    requires s.shutdown
    ensures Apply(c, s, call).shutdown
  {
    if LeavesLedger(call) {
      hide Apply;
      LedgerFrame(c, s, call);
    } else {
      hide RecordTradeResult, Heartbeat, Busy, Mark;
      match call
      case RecordCall(pnl, equity, day) => RecordFrame(c, s, pnl, equity, day);
      case HeartbeatCall(day) => HeartbeatFrame(s, day);
      case _ =>
    }
  }

  // -------------------------------------------------------- persistent locks

  predicate Persistent(r: RiskState) {
    r == GlobalDrawdownLock || r == ProtectionRequired
  }

  predicate BreachesExposure(c: Config, call: Call) {
    call.ExposureCall? && ExposureBreach(c, call.equity, call.total, call.symbol).Some?
  }

  // From a persistent lock one call leaves the pair exactly when it is an
  // exposure check that fails.
  lemma OnlyExposureLeavesPair(c: Config, s: State, call: Call)
    requires Persistent(s.risk)
    ensures Persistent(Apply(c, s, call).risk) <==> !BreachesExposure(c, call)
  {
    hide EvaluateSupervision, RecordTradeResult, Busy, DailyLossReached, Mark;
    match call
    case SuperviseCall(x) => SupervisionFrame(c, s, x);
    case RecordCall(pnl, equity, day) => RecordFrame(c, s, pnl, equity, day);
    case _ =>
  }

  // A run keeps the lock in the pair throughout exactly when none of its exposure
  // checks fails.
  lemma {:induction false} LockPersistsUnlessExposureBreached(c: Config, s: State, calls: seq<Call>)
    requires Persistent(s.risk)
    ensures (forall n :: 0 <= n <= |calls| ==> Persistent(Run(c, s, calls[..n]).risk)) <==>
            (forall n :: 0 <= n < |calls| ==> !BreachesExposure(c, calls[n]))
    decreases |calls|
  {
    hide Apply, BreachesExposure, Persistent;
    if calls != [] {
      var m := |calls| - 1;
      var p := calls[..m];
      LockPersistsUnlessExposureBreached(c, s, p);
      assert forall n :: 0 <= n <= m ==> p[..n] == calls[..n];
      assert forall n :: 0 <= n < m ==> p[n] == calls[n];
      assert calls[..|calls|] == calls && p[..m] == p;
      if Persistent(Run(c, s, p).risk) {
        OnlyExposureLeavesPair(c, Run(c, s, p), calls[m]);
      }
    }
  }

  // The gap: after one failed exposure check the drawdown lock is a daily one, and
  // the next day trading is approved again.
  lemma DrawdownLockCanBeEscaped(c: Config, s: State, equity: real, total: real, symbol: real, day: int)
    requires s.risk == GlobalDrawdownLock && !s.shutdown && !Busy(s) && day != s.day
    requires ExposureBreach(c, equity, total, symbol).Some?
    requires c.maxTradesDay > 0 && c.maxConsecutiveLosses > 0 && c.maxDailyProfit > 0.0
    ensures var t := Run(c, s, [ExposureCall(equity, total, symbol), HeartbeatCall(day)]);
            t.risk == Clear && CanOpenTrade(c, t, None).1
  {
    var calls := [ExposureCall(equity, total, symbol), HeartbeatCall(day)];
    assert calls[..1] == [calls[0]] && calls[..1][..0] == [];
    var locked := Apply(c, s, calls[0]);
    assert Run(c, s, calls[..1]) == locked by { assert Run(c, s, calls[..1][..0]) == s; }
    var t := Apply(c, locked, calls[1]);
    assert t.inFlight == s.inFlight && !Busy(t);
  }

  predicate HeartbeatIsFresh(c: Config, lastSeen: Option<real>, now: real) {
    lastSeen.Some? && Max(0.0, now - lastSeen.value) <= c.heartbeatHaltSeconds
    && Max(0.0, now - lastSeen.value) <= c.heartbeatStaleSeconds
  }

  // A feed was passed in, and it is missing, stale or drifting.
  predicate FeedComplains(c: Config, s: State, x: Supervision) {
    (x.lastMarket.Some? || x.exchangeTime.Some?) && FeedUnhealthy(c, s, x.lastMarket, x.exchangeTime, x.now).1
  }

  // A heartbeat alert outlives the heartbeat that caused it and hides what
  // supervision would look at next, and so does a complaint about the data feed: an
  // unprotected position is locked exactly when the heartbeat is fresh, no old
  // heartbeat alert is standing, and the feed has nothing to complain about.
  lemma ProtectionIsCheckedLast(c: Config, s: State, x: Supervision)
    requires s.risk != ProtectionRequired
    ensures EvaluateSupervision(c, s, x).risk == ProtectionRequired <==>
              && x.hasPosition && c.requireProtection && !x.protectionVerified
              && HeartbeatIsFresh(c, x.lastSeen, x.now)
              && !HeartbeatAlert(s.alert)
              && !FeedComplains(c, s, x)
  {
    hide QueueNearCapacity;
  }

  // Calls that neither raise an alert of their own nor mark protection themselves.
  predicate Monitors(call: Call) {
    call.SuperviseCall? || call.HeartbeatCall? || call.DetectStaleCall? || call.BeginCall? || call.EndCall?
        || call.MarkCall?
  }

  // Once a heartbeat alert stands, no sequence of supervisions, fresh heartbeats
  // included, ever clears it or takes the protection lock.
  lemma {:induction false} OldHeartbeatAlertHidesMissingProtection(c: Config, s: State, calls: seq<Call>)
    requires HeartbeatAlert(s.alert) && s.risk != ProtectionRequired
    requires forall n :: 0 <= n < |calls| ==> Monitors(calls[n])
    ensures HeartbeatAlert(Run(c, s, calls).alert) && Run(c, s, calls).risk != ProtectionRequired
    decreases |calls|
  {
    hide EvaluateSupervision, Busy, Mark, HeartbeatAlert;
    if calls != [] {
      var p, call := calls[..|calls| - 1], calls[|calls| - 1];
      OldHeartbeatAlertHidesMissingProtection(c, s, p);
      assert Monitors(calls[|calls| - 1]);
      AlertStep(c, Run(c, s, p), call);
    }
  }

  lemma AlertStep(c: Config, s: State, call: Call)
    requires HeartbeatAlert(s.alert) && s.risk != ProtectionRequired && Monitors(call)
    ensures HeartbeatAlert(Apply(c, s, call).alert) && Apply(c, s, call).risk != ProtectionRequired
  {
    hide Busy, Mark, HeartbeatAlert, EvaluateSupervision, DetectStale;
    match call
    case SuperviseCall(x) => StandingAlertStops(c, s, x);
    case DetectStaleCall(lastSeen, now) => AlertStands(c, s, lastSeen, now);
    case _ =>
  }

  lemma AlertStands(c: Config, s: State, lastSeen: Option<real>, now: real)
    requires HeartbeatAlert(s.alert)
    ensures var t := DetectStale(c, s, lastSeen, now).0;
            HeartbeatAlert(t.alert) && t.risk == s.risk
  {}

  lemma StandingAlertStops(c: Config, s: State, x: Supervision)
    requires HeartbeatAlert(s.alert)
    ensures EvaluateSupervision(c, s, x) == DetectStale(c, s, x.lastSeen, x.now).0
    ensures HeartbeatAlert(EvaluateSupervision(c, s, x).alert) && EvaluateSupervision(c, s, x).risk == s.risk
  {
    hide DetectStale, HeartbeatAlert, FeedUnhealthy, MarkProtection, QueueNearCapacity;
    AlertStands(c, s, x.lastSeen, x.now);
  }

  // ------------------------------------------------------------- daily limits

  function AtLeastZero(n: int): int { if n > 0 then n else 0 }

  // How many trades have been recorded since the latest approval, None before the first.
  // A refused check takes nothing back.
  function RecordsSinceApproval(c: Config, s: State, calls: seq<Call>): Option<nat> {
    if calls == [] then None
    else
      var p := calls[..|calls| - 1];
      var before := RecordsSinceApproval(c, s, p);
      match calls[|calls| - 1]
      case CanOpenCall(equity) => if CanOpenTrade(c, Run(c, s, p), equity).1 then Some(0) else before
      case RecordCall(_, _, _) => if before.Some? then Some(before.value + 1) else None
      case _ => before
  }

  // Every recorded trade is at most the m-th since an approval; with m == 1 each one has
  // an approval given since the previous record.
  predicate Disciplined(c: Config, s: State, calls: seq<Call>, m: nat) {
    calls == [] ||
      (Disciplined(c, s, calls[..|calls| - 1], m) &&
       (calls[|calls| - 1].RecordCall? ==>
          var k := RecordsSinceApproval(c, s, calls[..|calls| - 1]);
          k.Some? && k.value < m))
  }

  // The limits, exceeded by at most m - 1.
  predicate WithinLimits(c: Config, s: State, m: nat) {
    && 0 <= s.trades <= AtLeastZero(c.maxTradesDay) + m - 1
    && 0 <= s.losses <= AtLeastZero(c.maxConsecutiveLosses) + m - 1
  }

  // What is known k records after an approval.
  predicate HasHeadroom(c: Config, s: State, k: nat) {
    && c.maxTradesDay > 0 && c.maxConsecutiveLosses > 0
    && s.trades < c.maxTradesDay + k && s.losses < c.maxConsecutiveLosses + k
  }

  lemma ApprovalHasHeadroom(c: Config, s: State, equity: Option<real>)
    requires s.trades >= 0 && s.losses >= 0
    ensures CanOpenTrade(c, s, equity).1 ==> HasHeadroom(c, s, 0)
  {
    hide Busy, DailyLossReached;
  }

  lemma LimitStep(c: Config, s: State, call: Call, k: Option<nat>, m: nat)
    requires m > 0 && WithinLimits(c, s, m) && (k.Some? ==> HasHeadroom(c, s, k.value))
    requires call.RecordCall? ==> k.Some? && k.value < m
    ensures WithinLimits(c, Apply(c, s, call), m)
    ensures k.Some? ==> HasHeadroom(c, Apply(c, s, call), if call.RecordCall? then k.value + 1 else k.value)
    ensures call.CanOpenCall? && CanOpenTrade(c, s, call.account).1 ==> HasHeadroom(c, Apply(c, s, call), 0)
  {
    hide Apply, CanOpenTrade;
    TallyStep(c, s, Tally(s.day, s.trades, s.losses, s.pnl), call);
    if call.CanOpenCall? { ApprovalHasHeadroom(c, s, call.account); }
  }

  // If every recorded trade is at most the m-th since an approval, trades and losses
  // exceed their limits by at most m - 1: not at all when each has its own approval.
  lemma {:induction false} DisciplinedRunsStayWithinLimits(c: Config, day: int, calls: seq<Call>, m: nat)
    requires m > 0 && Disciplined(c, Fresh(day), calls, m)
    ensures var t, k := Run(c, Fresh(day), calls), RecordsSinceApproval(c, Fresh(day), calls);
            WithinLimits(c, t, m) && (k.Some? ==> HasHeadroom(c, t, k.value))
    decreases |calls|
  {
    hide Apply, WithinLimits, HasHeadroom, CanOpenTrade;
    if calls == [] {
      FreshWithinLimits(c, day, m);
    } else {
      var p := calls[..|calls| - 1];
      DisciplinedRunsStayWithinLimits(c, day, p, m);
      LimitStep(c, Run(c, Fresh(day), p), calls[|calls| - 1], RecordsSinceApproval(c, Fresh(day), p), m);
    }
  }

  lemma FreshWithinLimits(c: Config, day: int, m: nat)
    requires m > 0
    ensures WithinLimits(c, Fresh(day), m)
  {}

  // Approvals given minus trades recorded.
  function Balance(c: Config, s: State, calls: seq<Call>): int {
    if calls == [] then 0
    else
      var p := calls[..|calls| - 1];
      Balance(c, s, p) +
      match calls[|calls| - 1]
      case CanOpenCall(equity) => if CanOpenTrade(c, Run(c, s, p), equity).1 then 1 else 0
      case RecordCall(_, _, _) => -1
      case _ => 0
  }

  // Throughout, every record is backed by an approval and at most m are outstanding.
  predicate Balanced(c: Config, s: State, calls: seq<Call>, m: nat) {
    0 <= Balance(c, s, calls) <= m && (calls == [] || Balanced(c, s, calls[..|calls| - 1], m))
  }

  // Trades and losses with b outstanding approvals.
  predicate Covered(c: Config, s: State, b: int, m: nat) {
    && 0 <= s.trades && s.trades + b <= AtLeastZero(c.maxTradesDay) + m - 1
    && 0 <= s.losses && s.losses + b <= AtLeastZero(c.maxConsecutiveLosses) + m - 1
    && (c.maxTradesDay <= 0 || c.maxConsecutiveLosses <= 0 ==> b == 0)
  }

  lemma CoverStep(c: Config, s: State, call: Call, b: int, m: nat)
    requires m > 0 && 0 <= b <= m && Covered(c, s, b, m)
    requires call.CanOpenCall? && CanOpenTrade(c, s, call.account).1 ==> b < m
    requires call.RecordCall? ==> b > 0
    ensures call.CanOpenCall? && CanOpenTrade(c, s, call.account).1 ==> Covered(c, Apply(c, s, call), b + 1, m)
    ensures call.CanOpenCall? && !CanOpenTrade(c, s, call.account).1 ==> Covered(c, Apply(c, s, call), b, m)
    ensures call.RecordCall? ==> Covered(c, Apply(c, s, call), b - 1, m)
    ensures !call.CanOpenCall? && !call.RecordCall? ==> Covered(c, Apply(c, s, call), b, m)
  {
    hide Apply, CanOpenTrade;
    TallyStep(c, s, Tally(s.day, s.trades, s.losses, s.pnl), call);
    if call.CanOpenCall? { ApprovalHasHeadroom(c, s, call.account); }
  }

  // An approval reserves nothing: with at most m approvals outstanding throughout, the
  // counters plus the outstanding approvals exceed the limits by at most m - 1.
  lemma {:induction false} OutstandingApprovalsBound(c: Config, day: int, calls: seq<Call>, m: nat)
    requires m > 0 && Balanced(c, Fresh(day), calls, m)
    ensures Covered(c, Run(c, Fresh(day), calls), Balance(c, Fresh(day), calls), m)
    decreases |calls|
  {
    hide Apply, Covered, CanOpenTrade;
    if calls == [] {
      NothingOutstanding(c, day, m);
    } else {
      var p := calls[..|calls| - 1];
      assert Balanced(c, Fresh(day), p, m);
      OutstandingApprovalsBound(c, day, p, m);
      CoverStep(c, Run(c, Fresh(day), p), calls[|calls| - 1], Balance(c, Fresh(day), p), m);
    }
  }

  lemma NothingOutstanding(c: Config, day: int, m: nat)
    requires m > 0
    ensures Covered(c, Fresh(day), 0, m)
  {}

  // The day a run has reached, and what its caller recorded on it: trades, losses in a
  // row at the end, and the sum of the results.
  datatype Tally = Tally(day: int, records: nat, losses: nat, pnl: real)

  function TallyOf(day: int, calls: seq<Call>): Tally {
    if calls == [] then Tally(day, 0, 0, 0.0) else TallyNext(TallyOf(day, calls[..|calls| - 1]), calls[|calls| - 1])
  }

  function TallyNext(t: Tally, call: Call): Tally {
    match call
    case HeartbeatCall(today) => if today == t.day then t else Tally(today, 0, 0, 0.0)
    case RecordCall(pnl, _, today) =>
      var u := if today == t.day then t else Tally(today, 0, 0, 0.0);
      Tally(today, u.records + 1, if pnl < 0.0 then u.losses + 1 else 0, u.pnl + pnl)
    case _ => t
  }

  predicate Counts(s: State, t: Tally) {
    s.day == t.day && s.trades == t.records && s.losses == t.losses && s.pnl == t.pnl
  }

  lemma TallyStep(c: Config, s: State, t: Tally, call: Call)
    requires Counts(s, t)
    ensures Counts(Apply(c, s, call), TallyNext(t, call))
  {
    if LeavesLedger(call) {
      hide Apply;
      LedgerFrame(c, s, call);
    } else {
      hide RecordTradeResult, Mark, Busy;
      if call.RecordCall? { RecordFrame(c, s, call.pnl, call.accountAfter, call.onDay); }
    }
  }

  // The framework counts what is recorded, whatever it approved; so a limit is kept
  // exactly when the caller records no more trades, or losses in a row, on the day.
  lemma {:induction false} CountersAreTheCallersRecords(c: Config, day: int, calls: seq<Call>)
    ensures Counts(Run(c, Fresh(day), calls), TallyOf(day, calls))
    decreases |calls|
  {
    hide Apply, TallyNext;
    if calls != [] {
      var p := calls[..|calls| - 1];
      CountersAreTheCallersRecords(c, day, p);
      TallyStep(c, Run(c, Fresh(day), p), TallyOf(day, p), calls[|calls| - 1]);
    }
  }

  // The loss of a day that stops trading, in percent of a positive equity.
  predicate DayIsLost(pnl: real, equity: Option<real>, pct: real) {
    equity.Some? && equity.value > 0.0 && -pnl * 100.0 >= equity.value * pct
  }

  // Over every run, trading is approved exactly when nothing is latched, in flight or
  // locked and the caller's records of the day stay under all four limits; the first one
  // reached is the lock that is taken.
  lemma ApprovedIff(c: Config, day: int, calls: seq<Call>, equity: Option<real>)
    ensures var s, k := Run(c, Fresh(day), calls), TallyOf(day, calls);
            var (t, approved) := CanOpenTrade(c, s, equity);
            var open := !s.shutdown && s.risk == Clear && forall op :: op in s.inFlight ==> !s.inFlight[op];
            && (approved <==>
                  && open && k.records < c.maxTradesDay && k.losses < c.maxConsecutiveLosses
                  && !DayIsLost(k.pnl, equity, c.maxDailyLossPct) && k.pnl < c.maxDailyProfit)
            && (!open ==> t == s)
            && (open && k.records >= c.maxTradesDay ==> t.risk == MaxTradesDay)
            && (open && k.records < c.maxTradesDay && k.losses >= c.maxConsecutiveLosses ==>
                  t.risk == ConsecutiveLossLock)
            && (open && k.records < c.maxTradesDay && k.losses < c.maxConsecutiveLosses ==>
                  (DayIsLost(k.pnl, equity, c.maxDailyLossPct) ==> t.risk == DailyLossLock)
                  && (!DayIsLost(k.pnl, equity, c.maxDailyLossPct) && k.pnl >= c.maxDailyProfit ==>
                        t.risk == DailyProfitLock))
            && (t == s || (t.status == RiskLocked && t.risk != Clear && t.alert == Locked(t.risk)
                           && t.action == BlockNewEntries))
  {
    hide Run, TallyOf, DailyLossReached;
    CountersAreTheCallersRecords(c, day, calls);
    LossIsReachedIff(c, Run(c, Fresh(day), calls).pnl, equity);
  }

  lemma LossIsReachedIff(c: Config, pnl: real, equity: Option<real>)
    ensures DailyLossReached(c, pnl, equity) <==> DayIsLost(pnl, equity, c.maxDailyLossPct)
  {
    if equity.Some? {
      assert equity.value * (c.maxDailyLossPct / 100.0) * 100.0 == equity.value * c.maxDailyLossPct;
    }
  }

  // An exposure check locks exactly when a share of the equity is above its limit, the
  // whole portfolio before the single symbol, and raises an alert without an equity.
  lemma ExposureLocksIff(c: Config, s: State, equity: real, total: real, symbol: real)
    ensures var (t, ok) := CheckExposure(c, s, equity, total, symbol);
            var overTotal := total * 100.0 > c.maxPortfolioPct * equity;
            var overSymbol := symbol * 100.0 > c.maxSymbolPct * equity;
            && (ok <==> equity > 0.0 && !overTotal && !overSymbol)
            && (equity > 0.0 && overTotal ==> t.risk == PortfolioExposureLock && t.portfolio == TotalExceeded)
            && (equity > 0.0 && !overTotal && overSymbol ==>
                  t.risk == SymbolExposureLock && t.portfolio == SymbolExceeded)
            && (ok ==> t == s.(portfolio := PortfolioOk))
            && (equity <= 0.0 ==> t.risk == s.risk && t.alert == InvalidEquity && t.portfolio == EquityInvalid)
  {
    if equity > 0.0 {
      ShareAbove(total, equity, c.maxPortfolioPct);
      ShareAbove(symbol, equity, c.maxSymbolPct);
    }
  }

  lemma ShareAbove(part: real, equity: real, pct: real)
    requires equity > 0.0
    ensures part / equity * 100.0 > pct <==> part * 100.0 > pct * equity
  {
    var d := part / equity;
    assert d * equity == part;
    assert (pct - d * 100.0) * equity == pct * equity - part * 100.0;
    SignOfProduct(pct - d * 100.0, equity);
  }

  // --------------------------------------------------- the bound is reached

  // A state that approves: n trades booked today, all lost or none, and no lock.
  predicate Approving(s: State, day: int, n: nat, pnl: real) {
    && !s.shutdown && !Busy(s) && s.risk == Clear && s.day == day
    && s.trades == n && s.losses == (if pnl < 0.0 then n else 0) && s.pnl <= 0.0
  }

  // Limits that n trades of the day, lost or not, leave room under.
  predicate LeavesRoom(c: Config, n: nat, pnl: real) {
    && n < c.maxTradesDay && c.maxDailyProfit > 0.0
    && (if pnl < 0.0 then n else 0) < c.maxConsecutiveLosses
  }

  lemma Approves(c: Config, s: State, day: int, n: nat, pnl: real)
    requires Approving(s, day, n, pnl) && LeavesRoom(c, n, pnl)
    ensures CanOpenTrade(c, s, None) == (s, true)
  {
    hide Busy;
  }

  lemma Books(c: Config, s: State, day: int, n: nat, pnl: real)
    requires Approving(s, day, n, pnl) && pnl <= 0.0
    ensures var t := RecordTradeResult(c, s, pnl, None, day);
            && t.day == day && t.trades == n + 1 && t.losses == (if pnl < 0.0 then n + 1 else 0)
            && (LeavesRoom(c, n + 1, pnl) ==> Approving(t, day, n + 1, pnl))
  {
    hide CanOpenTrade;
    var booked := Book(ResetDay(s, day), pnl);
    CanOpenFrame(c, booked, None);
    SameDay(c, booked);
    if LeavesRoom(c, n + 1, pnl) {
      assert Busy(booked) == Busy(s);
      Approves(c, booked, day, n + 1, pnl);
    }
  }

  lemma SameDay(c: Config, s: State)
    ensures CanOpenTrade(c, s, None).0.day == s.day
  {
    hide Busy;
  }

  // n trades, each recorded right after its approval.
  lemma {:induction false} OneByOne(c: Config, day: int, n: nat, m: nat, pnl: real) returns (calls: seq<Call>)
    requires LeavesRoom(c, n, pnl) && pnl <= 0.0 && m > 0
    ensures Approving(Run(c, Fresh(day), calls), day, n, pnl)
    ensures Balance(c, Fresh(day), calls) == 0 && Balanced(c, Fresh(day), calls, m)
  {
    if n == 0 {
      calls := [];
    } else {
      hide Apply, Approving, LeavesRoom;
      RoomBelow(c, n, pnl);
      var p := OneByOne(c, day, n - 1, m, pnl);
      var q := Approve(c, day, p, n - 1, m, pnl);
      calls := RecordOne(c, day, q, n - 1, m, pnl);
    }
  }

  lemma RoomBelow(c: Config, n: nat, pnl: real)
    requires n > 0 && LeavesRoom(c, n, pnl)
    ensures LeavesRoom(c, n - 1, pnl)
  {}

  // One more approval.
  lemma Approve(c: Config, day: int, before: seq<Call>, n: nat, m: nat, pnl: real) returns (calls: seq<Call>)
    requires Approving(Run(c, Fresh(day), before), day, n, pnl) && LeavesRoom(c, n, pnl)
    requires Balanced(c, Fresh(day), before, m) && Balance(c, Fresh(day), before) < m
    ensures Run(c, Fresh(day), calls) == Run(c, Fresh(day), before)
    ensures Balance(c, Fresh(day), calls) == Balance(c, Fresh(day), before) + 1 && Balanced(c, Fresh(day), calls, m)
  {
    hide Approving, LeavesRoom, CanOpenTrade;
    calls := before + [CanOpenCall(None)];
    assert calls[..|before|] == before;
    Approves(c, Run(c, Fresh(day), before), day, n, pnl);
  }

  // One more record.
  lemma RecordOne(c: Config, day: int, before: seq<Call>, n: nat, m: nat, pnl: real) returns (calls: seq<Call>)
    requires Approving(Run(c, Fresh(day), before), day, n, pnl) && pnl <= 0.0
    requires Balanced(c, Fresh(day), before, m) && Balance(c, Fresh(day), before) > 0
    ensures var t := Run(c, Fresh(day), calls);
            && t.day == day && t.trades == n + 1 && t.losses == (if pnl < 0.0 then n + 1 else 0)
            && (LeavesRoom(c, n + 1, pnl) ==> Approving(t, day, n + 1, pnl))
    ensures Balance(c, Fresh(day), calls) == Balance(c, Fresh(day), before) - 1 && Balanced(c, Fresh(day), calls, m)
  {
    hide Approving, LeavesRoom, RecordTradeResult;
    calls := before + [RecordCall(pnl, None, day)];
    assert calls[..|before|] == before;
    Books(c, Run(c, Fresh(day), before), day, n, pnl);
  }

  // k approvals in a row, all given since none of them counts.
  lemma {:induction false} PileUp(c: Config, day: int, n: nat, k: nat, m: nat, pnl: real) returns (calls: seq<Call>)
    requires LeavesRoom(c, n, pnl) && pnl <= 0.0 && k <= m && m > 0
    ensures Approving(Run(c, Fresh(day), calls), day, n, pnl)
    ensures Balance(c, Fresh(day), calls) == k && Balanced(c, Fresh(day), calls, m)
  {
    hide Approving, LeavesRoom;
    if k == 0 {
      calls := OneByOne(c, day, n, m, pnl);
    } else {
      var before := PileUp(c, day, n, k - 1, m, pnl);
      calls := Approve(c, day, before, n, m, pnl);
    }
  }

  // Records on the books need no approval any more.
  predicate Booked(s: State, day: int, n: nat, pnl: real) {
    s.day == day && s.trades == n && s.losses == if pnl < 0.0 then n else 0
  }

  lemma BooksAnyway(c: Config, s: State, day: int, n: nat, pnl: real)
    requires Booked(s, day, n, pnl)
    ensures Booked(RecordTradeResult(c, s, pnl, None, day), day, n + 1, pnl)
  {
    hide CanOpenTrade;
    var booked := Book(ResetDay(s, day), pnl);
    CanOpenFrame(c, booked, None);
    SameDay(c, booked);
  }

  // The piled-up approvals are recorded one after the other, whatever locks that takes.
  lemma {:induction false} WorkOff(c: Config, day: int, n: nat, k: nat, m: nat, pnl: real) returns (calls: seq<Call>)
    requires LeavesRoom(c, n, pnl) && pnl <= 0.0 && k <= m && m > 0
    ensures Booked(Run(c, Fresh(day), calls), day, n + k, pnl)
    ensures Balance(c, Fresh(day), calls) == m - k && Balanced(c, Fresh(day), calls, m)
  {
    if k == 0 {
      calls := PileUp(c, day, n, m, m, pnl);
    } else {
      hide Booked, LeavesRoom, RecordTradeResult;
      var before := WorkOff(c, day, n, k - 1, m, pnl);
      calls := before + [RecordCall(pnl, None, day)];
      assert calls[..|before|] == before;
      BooksAnyway(c, Run(c, Fresh(day), before), day, n + k - 1, pnl);
    }
  }

  // For every m and every daily limit, m outstanding approvals do exceed it by m - 1.
  lemma TradeBoundIsReached(c: Config, day: int, m: nat) returns (calls: seq<Call>)
    requires m > 0 && c.maxTradesDay > 0 && c.maxConsecutiveLosses > 0 && c.maxDailyProfit > 0.0
    ensures Balanced(c, Fresh(day), calls, m) && Run(c, Fresh(day), calls).trades == c.maxTradesDay + m - 1
  {
    calls := WorkOff(c, day, c.maxTradesDay - 1, m, m, 0.0);
  }

  // And so for every limit on consecutive losses that a day has room for.
  lemma LossBoundIsReached(c: Config, day: int, m: nat) returns (calls: seq<Call>)
    requires m > 0 && 0 < c.maxConsecutiveLosses <= c.maxTradesDay && c.maxDailyProfit > 0.0
    ensures Balanced(c, Fresh(day), calls, m) && Run(c, Fresh(day), calls).losses == c.maxConsecutiveLosses + m - 1
  {
    calls := WorkOff(c, day, c.maxConsecutiveLosses - 1, m, m, -1.0);
  }

  // ----------------------------------------------------- the drawdown lock

  // The equities a run has recorded.
  function Recorded(calls: seq<Call>): seq<real> {
    if calls == [] then []
    else
      Recorded(calls[..|calls| - 1]) +
      match calls[|calls| - 1]
      case RecordCall(_, equity, _) => if equity.Some? then [equity.value] else []
      case _ => []
  }

  // peak is the largest of the equities, none without any.
  predicate IsLargest(peak: Option<real>, equities: seq<real>) {
    if equities == [] then peak == None
    else peak.Some? && peak.value in equities && forall i :: 0 <= i < |equities| ==> equities[i] <= peak.value
  }

  lemma PeakStep(peak: Option<real>, equities: seq<real>, equity: real)
    requires IsLargest(peak, equities) && equity > 0.0 && forall i :: 0 <= i < |equities| ==> equities[i] > 0.0
    ensures IsLargest(Some(NewPeak(peak, equity)), equities + [equity])
  {
    var all := equities + [equity];
    assert all[|equities|] == equity;
    if equities != [] {
      var i :| 0 <= i < |equities| && equities[i] == peak.value;
      assert all[i] == peak.value;
    }
  }

  lemma PeakFrame(c: Config, s: State, call: Call)
    ensures !(call.RecordCall? && call.accountAfter.Some?) ==> Apply(c, s, call).peak == s.peak
    ensures call.RecordCall? && call.accountAfter.Some? ==>
              Apply(c, s, call).peak == Some(NewPeak(s.peak, call.accountAfter.value))
  {
    hide NewPeak;
    if LeavesLedger(call) {
      hide Apply;
      LedgerFrame(c, s, call);
    } else {
      hide RecordTradeResult, Mark, Busy;
      if call.RecordCall? { RecordFrame(c, s, call.pnl, call.accountAfter, call.onDay); }
    }
  }

  // Over every run with positive recorded equities the peak is the largest of them.
  lemma {:induction false} PeakIsLargestRecorded(c: Config, day: int, calls: seq<Call>)
    requires forall i :: 0 <= i < |Recorded(calls)| ==> Recorded(calls)[i] > 0.0
    ensures IsLargest(Run(c, Fresh(day), calls).peak, Recorded(calls))
    decreases |calls|
  {
    hide Apply, NewPeak, IsLargest;
    if calls == [] {
      assert IsLargest(None, []) by { NothingLargest(); }
    } else {
      var p, call := calls[..|calls| - 1], calls[|calls| - 1];
      assert forall i :: 0 <= i < |Recorded(p)| ==> Recorded(p)[i] == Recorded(calls)[i];
      PeakIsLargestRecorded(c, day, p);
      var s := Run(c, Fresh(day), p);
      PeakFrame(c, s, call);
      assert Recorded(p) + [] == Recorded(p);
      if call.RecordCall? && call.accountAfter.Some? {
        assert Recorded(calls)[|Recorded(p)|] == call.accountAfter.value;
        PeakStep(s.peak, Recorded(p), call.accountAfter.value);
      }
    }
  }

  lemma NothingLargest()
    ensures IsLargest(None, [])
  {}

  // A record takes the drawdown lock exactly when the drawdown from the new peak is at
  // the limit.
  lemma RecordLocksIff(c: Config, s: State, pnl: real, equity: real, day: int)
    requires s.risk != GlobalDrawdownLock
    ensures RecordTradeResult(c, s, pnl, Some(equity), day).risk == GlobalDrawdownLock
            <==> DrawdownPct(NewPeak(s.peak, equity), equity) >= c.maxDrawdownPct
  {
    hide NewPeak, DrawdownPct, CanOpenTrade;
    var t := TrackDrawdown(c, Book(ResetDay(s, day), pnl), equity);
    ApprovalLocks(c, t, Some(equity));
  }

  lemma ApprovalLocks(c: Config, s: State, equity: Option<real>)
    ensures CanOpenTrade(c, s, equity).0.risk == GlobalDrawdownLock <==> s.risk == GlobalDrawdownLock
  {
    hide Busy, DailyLossReached;
  }

  // The fall from x to e is at least pct percent of x.
  predicate FallsBy(x: real, e: real, pct: real) {
    (x - e) * 100.0 >= pct * x
  }

  lemma DrawdownIsFall(peak: real, e: real, pct: real)
    requires peak > 0.0
    ensures DrawdownPct(peak, e) >= pct <==> FallsBy(peak, e, pct)
  {
    var d := (peak - e) / peak;
    assert d * peak == peak - e;
    assert (d * 100.0 - pct) * peak == (peak - e) * 100.0 - pct * peak;
    SignOfProduct(d * 100.0 - pct, peak);
  }

  lemma SignOfProduct(d: real, f: real)
    requires f > 0.0
    ensures d >= 0.0 <==> d * f >= 0.0
  {}

  // The largest start falls furthest.
  lemma LargestFallsFurthest(x: real, peak: real, e: real, pct: real)
    requires 0.0 < x <= peak && e > 0.0 && FallsBy(x, e, pct)
    ensures FallsBy(peak, e, pct)
  {
    var d := 100.0 - pct;
    assert d * x >= 100.0 * e;
    SignOfProduct(d, x);
    var g := peak - x;
    assert d * g >= 0.0 by { NonNegativeProduct(d, g); }
    assert d * peak == d * x + d * g;
  }

  lemma NonNegativeProduct(a: real, b: real)
    requires a >= 0.0 && b >= 0.0
    ensures a * b >= 0.0
  {}

  // Over every run with positive recorded equities, a record with equity e takes the
  // drawdown lock exactly when e lies at least the limit, in percent, below some equity
  // recorded so far.
  lemma DrawdownLocksIff(c: Config, day: int, before: seq<Call>, pnl: real, e: real, today: int)
    requires e > 0.0 && forall i :: 0 <= i < |Recorded(before)| ==> Recorded(before)[i] > 0.0
    requires Run(c, Fresh(day), before).risk != GlobalDrawdownLock
    ensures var calls := before + [RecordCall(pnl, Some(e), today)];
            Run(c, Fresh(day), calls).risk == GlobalDrawdownLock
            <==> exists x :: x in Recorded(calls) && FallsBy(x, e, c.maxDrawdownPct)
  {
    hide NewPeak, DrawdownPct, RecordTradeResult, FallsBy;
    var calls := before + [RecordCall(pnl, Some(e), today)];
    assert calls[..|before|] == before;
    assert Recorded(calls) == Recorded(before) + [e];
    PeakIsLargestRecorded(c, day, calls);
    var s := Run(c, Fresh(day), before);
    PeakFrame(c, s, calls[|before|]);
    var peak := NewPeak(s.peak, e);
    assert forall x :: x in Recorded(calls) ==> 0.0 < x <= peak;
    RecordLocksIff(c, s, pnl, e, today);
    DrawdownIsFall(peak, e, c.maxDrawdownPct);
    if x :| x in Recorded(calls) && FallsBy(x, e, c.maxDrawdownPct) {
      LargestFallsFurthest(x, peak, e, c.maxDrawdownPct);
    }
  }

  // A new day clears every lock but the persistent pair, with the counters; on the same
  // day nothing changes.
  lemma NewDayClearsDailyLocks(s: State, day: int)
    ensures var t := Heartbeat(s, day);
            && t.day == day
            && (day == s.day ==> t.risk == s.risk && t.trades == s.trades && t.losses == s.losses && t.pnl == s.pnl)
            && (day != s.day ==> t.trades == 0 && t.losses == 0 && t.pnl == 0.0)
            && (day != s.day && s.risk in {GlobalDrawdownLock, ProtectionRequired} ==>
                  t.risk == s.risk && (s.status in {Halted, RiskLocked} ==> t.status == s.status))
            && (day != s.day && s.risk !in {GlobalDrawdownLock, ProtectionRequired, Clear} ==>
                  t.risk == Clear && t.status == Ready)
            && (s.risk == Clear ==> t.risk == Clear)
            && t.shutdown == s.shutdown && t.inFlight == s.inFlight && t.processed == s.processed && t.peak == s.peak
  {}

  // Without a peak the first equity is it, and a zero peak shows no drawdown.
  lemma NoPeakNoDrawdown(peak: Option<real>, equity: real)
    ensures peak == None || peak == Some(0.0) ==> NewPeak(peak, equity) == equity
    ensures DrawdownPct(0.0, equity) == 0.0 && (equity != 0.0 ==> DrawdownPct(equity, equity) == 0.0)
  {}

  // Nothing earlier in the supervision speaks: fresh heartbeat, no standing alert, quiet
  // feed, and no unprotected position.
  predicate NothingElse(c: Config, s: State, x: Supervision) {
    && HeartbeatIsFresh(c, x.lastSeen, x.now) && !HeartbeatAlert(s.alert) && !FeedComplains(c, s, x)
    && !(x.hasPosition && c.requireProtection && !x.protectionVerified)
  }

  // A queue is reported exactly when one entry more would exceed the warning share of its
  // capacity; the signal queue first.  Otherwise the latch is reported, or that all is well.
  lemma QueueIsReportedIff(c: Config, s: State, x: Supervision)
    requires NothingElse(c, s, x)
    ensures var t := EvaluateSupervision(c, s, x);
            var signals := c.signalQueueMax > 0
                           && AtLeastZero(x.signalQueue) as real + 1.0 > c.signalQueueMax as real * c.queueWarningPct;
            var writes := c.dbQueueMax > 0
                          && AtLeastZero(x.dbQueue) as real + 1.0 > c.dbQueueMax as real * c.queueWarningPct;
            && (signals ==> t.alert == SignalQueueHigh && t.action == Throttle)
            && (!signals && writes ==> t.alert == DbQueueHigh && t.action == Throttle)
            && (!signals && !writes && s.shutdown ==> t.alert == ShutdownAlert && t.action == Halt)
            && (!signals && !writes && !s.shutdown ==> t.alert == FrameworkOk && t.action == NoAction)
            && t.risk == s.risk && t.shutdown == s.shutdown && !t.restart
  {
    NearCapacityIff(c, x.signalQueue, c.signalQueueMax);
    NearCapacityIff(c, x.dbQueue, c.dbQueueMax);
    hide QueueNearCapacity;
  }

  lemma NearCapacityIff(c: Config, depth: int, max: int)
    ensures QueueNearCapacity(c, depth, max) <==>
            max > 0 && AtLeastZero(depth) as real + 1.0 > max as real * c.queueWarningPct
  {
    var x := max as real * c.queueWarningPct;
    assert x.Floor as real <= x < x.Floor as real + 1.0;
  }

  // ------------------------------------------------------- mutual exclusion

  ghost predicate AtMostOneInFlight(s: State) {
    && s.inFlight.Keys == OPERATIONS
    && forall a, b :: a in s.inFlight && b in s.inFlight && s.inFlight[a] && s.inFlight[b] ==> a == b
  }

  lemma InFlightStep(c: Config, s: State, call: Call)
    requires AtMostOneInFlight(s)
    ensures AtMostOneInFlight(Apply(c, s, call))
  {
    hide AtMostOneInFlight;
    if call.BeginCall? || call.EndCall? {
      OperationStep(s, call);
    } else {
      OtherCallsKeepInFlight(c, s, call);
      SameInFlight(s, Apply(c, s, call));
    }
  }

  lemma OperationStep(s: State, call: Call)
    requires AtMostOneInFlight(s) && (call.BeginCall? || call.EndCall?)
    ensures call.BeginCall? ==> AtMostOneInFlight(BeginOperation(s, call.op, call.key).0)
    ensures call.EndCall? ==> AtMostOneInFlight(EndOperation(s, call.ended))
  {
    hide Mark;
  }

  lemma OtherCallsKeepInFlight(c: Config, s: State, call: Call)
    requires !call.BeginCall? && !call.EndCall?
    ensures Apply(c, s, call).inFlight == s.inFlight
  {
    hide RecordTradeResult, Heartbeat, Mark;
    if LeavesLedger(call) {
      LedgerFrame(c, s, call);
    } else {
      match call
      case RecordCall(pnl, equity, day) => RecordFrame(c, s, pnl, equity, day);
      case HeartbeatCall(day) => HeartbeatFrame(s, day);
      case _ =>
    }
  }

  lemma SameInFlight(s: State, t: State)
    requires AtMostOneInFlight(s) && t.inFlight == s.inFlight
    ensures AtMostOneInFlight(t)
  {}

  lemma {:induction false} OneOperationAtATime(c: Config, day: int, calls: seq<Call>)
    ensures AtMostOneInFlight(Run(c, Fresh(day), calls))
    decreases |calls|
  {
    OnlyOneStays(c, Fresh(day), calls);
  }

  lemma MarkRemembers(window: seq<string>, key: string)
    ensures key in Mark(window, key)
  {
    var w := Mark(window, key);
    if key !in window {
      assert w[|w| - 1] == key;
    }
  }

  // An operation in flight stays so, and no operation is accepted, through any calls
  // that do not end it.
  lemma {:induction false} RunningOperationExcludesOthers(
      c: Config, s: State, op: Operation, calls: seq<Call>, other: Operation, key: Option<string>)
    requires op in s.inFlight && s.inFlight[op] && forall n :: 0 <= n < |calls| ==> calls[n] != EndCall(op)
    ensures var t := Run(c, s, calls);
            op in t.inFlight && t.inFlight[op] && !BeginOperation(t, other, key).1
    decreases |calls|
  {
    hide Apply;
    if calls != [] {
      var p, call := calls[..|calls| - 1], calls[|calls| - 1];
      RunningOperationExcludesOthers(c, s, op, p, other, key);
      StaysInFlight(c, Run(c, s, p), op, call);
    }
  }

  lemma StaysInFlight(c: Config, s: State, op: Operation, call: Call)
    requires op in s.inFlight && s.inFlight[op] && call != EndCall(op)
    ensures var t := Apply(c, s, call); op in t.inFlight && t.inFlight[op]
  {
    if call.BeginCall? || call.EndCall? {
      hide Mark;
    } else {
      hide Apply;
      OtherCallsKeepInFlight(c, s, call);
    }
  }

  // An accepted operation excludes others until it ends: through any calls that do not
  // end it, it is the only one in flight and nothing else is accepted.  Its end frees
  // the framework, but its key is still known.
  lemma AcceptedOperationExcludesOthers(
      c: Config, day: int, before: seq<Call>, op: Operation, key: Option<string>,
      calls: seq<Call>, other: Operation, otherKey: Option<string>)
    requires BeginOperation(Run(c, Fresh(day), before), op, key).1
    requires forall n :: 0 <= n < |calls| ==> calls[n] != EndCall(op)
    ensures var s := BeginOperation(Run(c, Fresh(day), before), op, key).0;
            var t := Run(c, s, calls);
            && (forall o :: o in t.inFlight && t.inFlight[o] <==> o == op)
            && !BeginOperation(t, other, otherKey).1
            && (forall o :: o in EndOperation(t, op).inFlight ==> !EndOperation(t, op).inFlight[o])
            && (key.Some? ==> key.value in s.processed && !BeginOperation(EndOperation(s, op), other, key).1)
  {
    hide Run, BeginOperation, EndOperation, AtMostOneInFlight;
    var s0 := Run(c, Fresh(day), before);
    OneOperationAtATime(c, day, before);
    AcceptedIsAlone(s0, op, key, other);
    var s := BeginOperation(s0, op, key).0;
    RunningOperationExcludesOthers(c, s, op, calls, other, otherKey);
    OnlyOneStays(c, s, calls);
    AloneThenFree(Run(c, s, calls), op);
  }

  lemma AloneThenFree(t: State, op: Operation)
    requires AtMostOneInFlight(t) && op in t.inFlight && t.inFlight[op]
    ensures forall o :: o in t.inFlight && t.inFlight[o] <==> o == op
    ensures var e := EndOperation(t, op); forall o :: o in e.inFlight ==> !e.inFlight[o]
  {}

  lemma {:induction false} OnlyOneStays(c: Config, s: State, calls: seq<Call>)
    requires AtMostOneInFlight(s)
    ensures AtMostOneInFlight(Run(c, s, calls))
    decreases |calls|
  {
    hide Apply, AtMostOneInFlight;
    if calls != [] {
      OnlyOneStays(c, s, calls[..|calls| - 1]);
      InFlightStep(c, Run(c, s, calls[..|calls| - 1]), calls[|calls| - 1]);
    }
  }

  // Right after its acceptance an operation is the only one in flight.
  lemma AcceptedIsAlone(s: State, op: Operation, key: Option<string>, other: Operation)
    requires AtMostOneInFlight(s) && BeginOperation(s, op, key).1
    ensures var t := BeginOperation(s, op, key).0;
            && op in t.inFlight && t.inFlight[op] && AtMostOneInFlight(t)
            && (key.Some? ==> key.value in t.processed && !BeginOperation(EndOperation(t, op), other, key).1)
  {
    if key.Some? { MarkRemembers(s.processed, key.value); }
    assert forall o :: o in s.inFlight && o != op ==> !s.inFlight[o];
  }

  // ---------------------------------------------------------- dedupe window

  function MarkAll(window: seq<string>, keys: seq<string>): seq<string> {
    if keys == [] then window else Mark(MarkAll(window, keys[..|keys| - 1]), keys[|keys| - 1])
  }

  // The keys that were new when offered, in order.
  function Accepted(window: seq<string>, keys: seq<string>): seq<string> {
    if keys == [] then []
    else
      var p, key := keys[..|keys| - 1], keys[|keys| - 1];
      if key in MarkAll(window, p) then Accepted(window, p) else Accepted(window, p) + [key]
  }

  // The window is the last 2000 of everything accepted, and never repeats a key.
  lemma {:induction false} MarksAreRecent(window: seq<string>, keys: seq<string>)
    requires |window| <= WINDOW && NoRepeats(window)
    ensures MarkAll(window, keys) == LastN(window + Accepted(window, keys), WINDOW)
    ensures NoRepeats(MarkAll(window, keys)) && |MarkAll(window, keys)| <= WINDOW
    decreases |keys|
  {
    hide NoRepeats, LastN, Mark;
    if keys == [] {
      assert window + [] == window;
      SmallWindow(window);
    } else {
      var p, key := keys[..|keys| - 1], keys[|keys| - 1];
      MarksAreRecent(window, p);
      MarkNext(MarkAll(window, p), window + Accepted(window, p), key);
      assert window + Accepted(window, p) + [key] == window + (Accepted(window, p) + [key]);
    }
  }

  lemma SmallWindow(window: seq<string>)
    requires |window| <= WINDOW
    ensures LastN(window, WINDOW) == window
  {}

  // One more key on a window that keeps the last of everything accepted.
  lemma MarkNext(w: seq<string>, all: seq<string>, key: string)
    requires w == LastN(all, WINDOW) && NoRepeats(w) && |w| <= WINDOW
    ensures var v := Mark(w, key);
            && v == (if key in w then LastN(all, WINDOW) else LastN(all + [key], WINDOW))
            && NoRepeats(v) && |v| <= WINDOW
  {
    if key !in w { LastNAppend(all, key, WINDOW); }
  }

  // A key that has just been marked, whether new or not yet forgotten, is the newest
  // or stays known until as many other keys are accepted as follow it in the window.
  lemma {:induction false} MarkedKeyFades(window: seq<string>, i: nat, keys: seq<string>)
    requires |window| <= WINDOW && NoRepeats(window) && i < |window|
    requires |window| - i + |Accepted(window, keys)| <= WINDOW + 1
    ensures window[i] in MarkAll(window, keys) <==> |window| - i + |Accepted(window, keys)| <= WINDOW
    ensures window[i] !in Accepted(window, keys)
    decreases |keys|
  {
    var accepted := Accepted(window, keys);
    hide NoRepeats, LastN, Mark;
    if keys != [] {
      MarkedKeyFades(window, i, keys[..|keys| - 1]);
    }
    MarksAreRecent(window, keys);
    hide MarkAll, Accepted;
    StillInWindow(window, i, accepted);
  }

  // An element stays in the window exactly while it is among the last 2000.
  lemma StillInWindow(window: seq<string>, i: nat, accepted: seq<string>)
    requires NoRepeats(window) && i < |window| && window[i] !in accepted
    requires |window| - i + |accepted| <= WINDOW + 1
    ensures window[i] in LastN(window + accepted, WINDOW) <==> |window| - i + |accepted| <= WINDOW
  {
    var all := window + accepted;
    var m := LastN(all, WINDOW);
    assert all[i] == window[i];
    if |window| - i + |accepted| <= WINDOW {
      assert m[|m| - (|window| - i + |accepted|)] == window[i];
    } else {
      assert m == window[i + 1..] + accepted;
    }
  }

  // The keys a run offers to the window: marked events, and the keys of operations
  // that were started.
  function Offered(c: Config, s: State, calls: seq<Call>): seq<string> {
    if calls == [] then []
    else
      var p := calls[..|calls| - 1];
      Offered(c, s, p) + OfferedBy(Run(c, s, p), calls[|calls| - 1])
  }

  function OfferedBy(s: State, call: Call): seq<string> {
    match call
    case MarkCall(event) => [event]
    case BeginCall(op, key) => if BeginOperation(s, op, key).1 && key.Some? then [key.value] else []
    case _ => []
  }

  lemma {:induction false} MarkAllAppend(window: seq<string>, xs: seq<string>, ys: seq<string>)
    ensures MarkAll(window, xs + ys) == MarkAll(MarkAll(window, xs), ys)
    decreases |ys|
  {
    if ys == [] {
      assert xs + ys == xs;
    } else {
      assert (xs + ys)[..|xs + ys| - 1] == xs + ys[..|ys| - 1];
      MarkAllAppend(window, xs, ys[..|ys| - 1]);
    }
  }

  lemma OfferStep(c: Config, s: State, call: Call)
    ensures Apply(c, s, call).processed == MarkAll(s.processed, OfferedBy(s, call))
  {
    if LeavesLedger(call) {
      hide Apply;
      LedgerFrame(c, s, call);
    } else {
      hide RecordTradeResult, Heartbeat, Mark, Busy;
      match call
      case RecordCall(pnl, equity, day) => RecordFrame(c, s, pnl, equity, day);
      case HeartbeatCall(day) => HeartbeatFrame(s, day);
      case MarkCall(event) => MarkOne(s.processed, event);
      case BeginCall(op, key) => if key.Some? { MarkOne(s.processed, key.value); }
      case _ =>
    }
  }

  lemma MarkOne(window: seq<string>, key: string)
    ensures MarkAll(window, [key]) == Mark(window, key)
  {
    assert [key][..0] == [] && MarkAll(window, [key][..0]) == window;
  }

  // The processed events of a run are the fold of what it offered.
  lemma {:induction false} ProcessedIsFold(c: Config, s: State, calls: seq<Call>)
    ensures Run(c, s, calls).processed == MarkAll(s.processed, Offered(c, s, calls))
    decreases |calls|
  {
    hide Apply, OfferedBy, Mark;
    if calls != [] {
      var p, call := calls[..|calls| - 1], calls[|calls| - 1];
      ProcessedIsFold(c, s, p);
      OfferStep(c, Run(c, s, p), call);
      MarkAllAppend(s.processed, Offered(c, s, p), OfferedBy(Run(c, s, p), call));
    }
  }

  // The keys that were new when a run of the framework offered them.
  function AcceptedBy(c: Config, s: State, calls: seq<Call>): seq<string> {
    Accepted(s.processed, Offered(c, s, calls))
  }

  // In every reachable state the processed events are the last 2000 accepted keys,
  // free of repeats.
  lemma WindowIsRecentAccepted(c: Config, day: int, calls: seq<Call>)
    ensures var t := Run(c, Fresh(day), calls);
            && t.processed == LastN(AcceptedBy(c, Fresh(day), calls), 2000)
            && NoRepeats(t.processed) && |t.processed| <= 2000
  {
    var keys := Offered(c, Fresh(day), calls);
    ProcessedIsFold(c, Fresh(day), calls);
    MarksAreRecent([], keys);
    assert [] + Accepted([], keys) == Accepted([], keys);
  }

  lemma {:induction false} RunConcat(c: Config, s: State, xs: seq<Call>, ys: seq<Call>)
    ensures Run(c, s, xs + ys) == Run(c, Run(c, s, xs), ys)
    decreases |ys|
  {
    hide Apply;
    if ys == [] {
      assert xs + ys == xs;
    } else {
      assert (xs + ys)[..|xs + ys| - 1] == xs + ys[..|ys| - 1];
      RunConcat(c, s, xs, ys[..|ys| - 1]);
    }
  }

  // From any reachable state that takes a new key, marked or with an operation, every
  // later operation with that key is refused, and the key stays known, until 2000 other
  // keys have been accepted; then it is forgotten.
  lemma KeyIsRefusedForAWindow(c: Config, day: int, before: seq<Call>, call: Call, key: string, after: seq<Call>,
      op: Operation)
    requires var s := Run(c, Fresh(day), before);
             key !in s.processed && OfferedBy(s, call) == [key]
             && |AcceptedBy(c, Apply(c, s, call), after)| <= 2000
    ensures var s := Apply(c, Run(c, Fresh(day), before), call);
            var t := Run(c, s, after);
            && t == Run(c, Fresh(day), before + [call] + after)
            && (key in t.processed <==> |AcceptedBy(c, s, after)| < 2000)
            && (key in t.processed ==> !BeginOperation(t, op, Some(key)).1)
            && key !in AcceptedBy(c, s, after)
  {
    hide Apply, OfferedBy, BeginOperation;
    var s0 := Run(c, Fresh(day), before);
    var s := Apply(c, s0, call);
    var t := Run(c, s, after);
    WindowIsRecentAccepted(c, day, before);
    OfferStep(c, s0, call);
    MarkOne(s0.processed, key);
    MarkKeepsShape(s0.processed, key);
    ProcessedIsFold(c, s, after);
    MarkedKeyFades(s.processed, |s.processed| - 1, Offered(c, s, after));
    RunConcat(c, Fresh(day), before + [call], after);
    assert (before + [call])[..|before|] == before;
    KnownKeyIsRefused(t, op, key);
  }

  lemma KnownKeyIsRefused(s: State, op: Operation, key: string)
    ensures key in s.processed ==> !BeginOperation(s, op, Some(key)).1
  {}

  lemma MarkKeepsShape(window: seq<string>, key: string)
    requires |window| <= WINDOW && NoRepeats(window) && key !in window
    ensures var w := Mark(window, key);
            0 < |w| <= WINDOW && NoRepeats(w) && w[|w| - 1] == key
  {}
}
