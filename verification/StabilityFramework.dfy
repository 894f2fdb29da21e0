// The framework object: one mutable state, changed call by call.
module StabilityFramework {
  import opened Wrappers
  import opened Stability

  class ProductionStabilityFramework {
    const config: Config
    var status: Status
    var riskState: RiskState
    var protectionState: Protection
    var day: int
    var dailyRealizedPnl: real
    var tradesToday: int
    var consecutiveLosses: int
    var equityPeak: Option<real>
    var restartRequired: bool
    var shutdownRequired: bool
    var alert: Alert
    var supervisorAction: Action
    var inFlight: map<Operation, bool>
    var processedEvents: seq<string>
    var dataState: DataState
    var reconciliationState: Reconciliation
    var portfolioState: Portfolio

    function View(): State
      reads this
    {
      State(status, riskState, protectionState, day, dailyRealizedPnl, tradesToday, consecutiveLosses, equityPeak,
            restartRequired, shutdownRequired, alert, supervisorAction, inFlight, processedEvents,
            dataState, reconciliationState, portfolioState)
    }

    constructor (config: Config, day: int)
      ensures this.config == config && View() == Fresh(day)
    {
      this.config := config;
      status, riskState, protectionState, this.day := Ready, Clear, UnknownProtection, day;
      dailyRealizedPnl, tradesToday, consecutiveLosses, equityPeak := 0.0, 0, 0, None;
      restartRequired, shutdownRequired, alert, supervisorAction := false, false, NoAlert, NoAction;
      inFlight, processedEvents := IDLE, [];
      dataState, reconciliationState, portfolioState := DataUnknown, NotRun, PortfolioUnknown;
    }

    method RaiseAlert(a: Alert, action: Action)
      modifies `alert, `supervisorAction
      ensures View() == Raise(old(View()), a, action)
    {
      alert, supervisorAction := a, action;
    }

    method TakeLock(why: RiskState)
      modifies `riskState, `status, `alert, `supervisorAction
      ensures View() == Lock(old(View()), why)
    {
      riskState := why;
      status := RiskLocked;
      RaiseAlert(Locked(why), BlockNewEntries);
    }

    method ResetDayIfNeeded(current: int)
      modifies `day, `dailyRealizedPnl, `tradesToday, `consecutiveLosses, `riskState, `status
      ensures View() == ResetDay(old(View()), current)
    {
      if day != current {
        day := current;
        dailyRealizedPnl, tradesToday, consecutiveLosses := 0.0, 0, 0;
        if Resettable(riskState) {
          riskState := Clear;
          status := Ready;
        }
      }
    }

    method CheckStartup(hasPosition: bool, verified: bool) returns (ok: bool)
      modifies this
      ensures (View(), ok) == StartupCheck(config, old(View()), hasPosition, verified)
    {
      status := Ready;
      protectionState := if verified then Protected else if hasPosition then Unprotected else NoPosition;
      if hasPosition && config.requireProtection && !verified {
        status := Halted;
        shutdownRequired := true;
        riskState := ProtectionRequired;
        return false;
      }
      return true;
    }

    method Beat(current: int)
      modifies this
      ensures View() == Heartbeat(old(View()), current)
    {
      ResetDayIfNeeded(current);
      if status != Halted && status != RiskLocked {
        status := Ready;
      }
    }

    method DetectStaleHeartbeat(lastSeen: Option<real>, now: real) returns (stale: bool)
      modifies this
      ensures (View(), stale) == DetectStale(config, old(View()), lastSeen, now)
    {
      if lastSeen.None? {
        restartRequired := true;
        RaiseAlert(HeartbeatMissing, Restart);
        return true;
      }
      var age := Max(0.0, now - lastSeen.value);
      if age > config.heartbeatHaltSeconds {
        restartRequired := true;
        shutdownRequired := true;
        status := Halted;
        RaiseAlert(HeartbeatHalted, HaltAndRestart);
        return true;
      }
      if age > config.heartbeatStaleSeconds {
        restartRequired := true;
        RaiseAlert(HeartbeatStale, Restart);
        return true;
      }
      restartRequired := false;
      supervisorAction := NoAction;
      return false;
    }

    method DataFeedIsUnhealthy(lastMarket: Option<real>, exchangeTime: Option<real>, now: real) returns (bad: bool)
      modifies `alert, `supervisorAction, `dataState
      ensures (View(), bad) == FeedUnhealthy(config, old(View()), lastMarket, exchangeTime, now)
    {
      if lastMarket.None? {
        dataState := DataMissing;
        RaiseAlert(MarketDataMissing, Halt);
        return true;
      }
      if Max(0.0, now - lastMarket.value) > config.marketDataStaleSeconds {
        dataState := DataOld;
        RaiseAlert(MarketDataStale, Halt);
        return true;
      }
      if exchangeTime.Some? && Max(now - exchangeTime.value, exchangeTime.value - now) > config.clockDriftSeconds {
        dataState := DataDrifting;
        RaiseAlert(ClockDrift, Throttle);
        return true;
      }
      dataState := DataOk;
      return false;
    }

    method MarkProtectionState(verified: bool)
      modifies this
      ensures View() == MarkProtection(config, old(View()), verified)
    {
      protectionState := if verified then Protected else Unprotected;
      if !verified && config.requireProtection {
        shutdownRequired := true;
        status := Halted;
        riskState := ProtectionRequired;
        RaiseAlert(ProtectionAlert, HaltAndProtect);
      }
    }

    method Supervise(x: Supervision)
      modifies this
      ensures View() == EvaluateSupervision(config, old(View()), x)
    {
      hide QueueNearCapacity;
      var _ := DetectStaleHeartbeat(x.lastSeen, x.now);
      if HeartbeatAlert(alert) {
        return;
      }
      if x.lastMarket.Some? || x.exchangeTime.Some? {
        var bad := DataFeedIsUnhealthy(x.lastMarket, x.exchangeTime, x.now);
        if bad {
          return;
        }
      }
      if x.hasPosition && config.requireProtection && !x.protectionVerified {
        MarkProtectionState(false);
        RaiseAlert(ProtectionMissing, HaltAndProtect);
      } else if QueueNearCapacity(config, x.signalQueue, config.signalQueueMax) {
        RaiseAlert(SignalQueueHigh, Throttle);
      } else if QueueNearCapacity(config, x.dbQueue, config.dbQueueMax) {
        RaiseAlert(DbQueueHigh, Throttle);
      } else if shutdownRequired {
        RaiseAlert(ShutdownAlert, Halt);
      } else if restartRequired {
        RaiseAlert(if alert == NoAlert then RestartAlert else alert, Restart);
      } else {
        RaiseAlert(FrameworkOk, NoAction);
      }
    }

    method RestartReconciliationPlan(exchangeQty: real, localQty: real, protectionVerified: bool, ordersVerified: bool)
        returns (plan: Action)
      modifies this
      ensures (View(), plan) ==
              Reconcile(config, old(View()), exchangeQty, localQty, protectionVerified, ordersVerified)
    {
      var gap := Max(exchangeQty - localQty, localQty - exchangeQty);
      if gap > 0.00000001 {
        restartRequired := true;
        reconciliationState := Mismatch;
        RaiseAlert(PositionMismatch, HaltAndReconcile);
        return HaltAndReconcile;
      }
      if exchangeQty > 0.0 && config.requireProtection && !protectionVerified {
        MarkProtectionState(false);
        reconciliationState := ReconUnprotected;
        return HaltAndProtect;
      }
      if exchangeQty > 0.0 && !ordersVerified {
        reconciliationState := OpenOrderUnknown;
        RaiseAlert(OrdersUnknown, HaltAndReconcile);
        return HaltAndReconcile;
      }
      reconciliationState := Reconciled;
      return Resume;
    }

    method CheckPortfolioExposure(equity: real, total: real, symbol: real) returns (ok: bool)
      modifies `riskState, `status, `alert, `supervisorAction, `portfolioState
      ensures (View(), ok) == CheckExposure(config, old(View()), equity, total, symbol)
    {
      if equity <= 0.0 {
        portfolioState := EquityInvalid;
        RaiseAlert(InvalidEquity, Halt);
        return false;
      }
      if total / equity * 100.0 > config.maxPortfolioPct {
        portfolioState := TotalExceeded;
        TakeLock(PortfolioExposureLock);
        return false;
      }
      if symbol / equity * 100.0 > config.maxSymbolPct {
        portfolioState := SymbolExceeded;
        TakeLock(SymbolExposureLock);
        return false;
      }
      portfolioState := PortfolioOk;
      return true;
    }

    method MayOpenTrade(equity: Option<real>) returns (ok: bool)
      modifies `riskState, `status, `alert, `supervisorAction
      ensures (View(), ok) == CanOpenTrade(config, old(View()), equity)
    {
      if shutdownRequired {
        return false;
      }
      if exists op :: op in inFlight && inFlight[op] {
        return false;
      }
      if riskState != Clear {
        return false;
      }
      if tradesToday >= config.maxTradesDay {
        TakeLock(MaxTradesDay);
        return false;
      }
      if consecutiveLosses >= config.maxConsecutiveLosses {
        TakeLock(ConsecutiveLossLock);
        return false;
      }
      if DailyLossReached(config, dailyRealizedPnl, equity) {
        TakeLock(DailyLossLock);
        return false;
      }
      if dailyRealizedPnl >= config.maxDailyProfit {
        TakeLock(DailyProfitLock);
        return false;
      }
      return true;
    }

    method TrackEquity(equity: real)
      modifies `equityPeak, `riskState, `status, `alert, `supervisorAction
      ensures View() == TrackDrawdown(config, old(View()), equity)
    {
      hide NewPeak, DrawdownPct;
      var peak := NewPeak(equityPeak, equity);
      equityPeak := Some(peak);
      if DrawdownPct(peak, equity) >= config.maxDrawdownPct {
        TakeLock(GlobalDrawdownLock);
      }
    }

    method RecordResult(pnl: real, equity: Option<real>, current: int)
      modifies this
      ensures View() == RecordTradeResult(config, old(View()), pnl, equity, current)
    {
      hide CanOpenTrade, TrackDrawdown, ResetDay;
      ResetDayIfNeeded(current);
      tradesToday := tradesToday + 1;
      dailyRealizedPnl := dailyRealizedPnl + pnl;
      consecutiveLosses := if pnl < 0.0 then consecutiveLosses + 1 else 0;
      if equity.Some? {
        TrackEquity(equity.value);
      }
      var _ := MayOpenTrade(equity);
    }

    method MarkEvent(key: string)
      modifies `processedEvents
      ensures View() == old(View()).(processed := Mark(old(processedEvents), key))
    {
      if key in processedEvents {
        return;
      }
      processedEvents := processedEvents + [key];
      if |processedEvents| > WINDOW {
        processedEvents := processedEvents[|processedEvents| - WINDOW..];
      }
    }

    method Begin(op: Operation, key: Option<string>) returns (ok: bool)
      modifies `inFlight, `processedEvents
      ensures (View(), ok) == BeginOperation(old(View()), op, key)
    {
      if op !in inFlight {
        return false;
      }
      if key.Some? && key.value in processedEvents {
        return false;
      }
      if exists other :: other in inFlight && inFlight[other] {
        return false;
      }
      inFlight := inFlight[op := true];
      if key.Some? {
        MarkEvent(key.value);
      }
      return true;
    }

    method End(op: Operation)
      modifies `inFlight
      ensures View() == EndOperation(old(View()), op)
    {
      if op in inFlight {
        inFlight := inFlight[op := false];
      }
    }

    // One call of any kind.
    method Handle(call: Call)
      modifies this
      ensures View() == Apply(config, old(View()), call)
    {
      hide StartupCheck, Heartbeat, DetectStale, EvaluateSupervision, Reconcile, FeedUnhealthy, CheckExposure,
        CanOpenTrade, BeginOperation, EndOperation, RecordTradeResult, MarkProtection, Mark;
      match call
      case StartupCheckCall(hasPosition, verified) => var _ := CheckStartup(hasPosition, verified);
      case HeartbeatCall(current) => Beat(current);
      case DetectStaleCall(lastSeen, now) => var _ := DetectStaleHeartbeat(lastSeen, now);
      case SuperviseCall(x) => Supervise(x);
      case ReconcileCall(e, l, p, o) => var _ := RestartReconciliationPlan(e, l, p, o);
      case FeedCall(m, e, now) => var _ := DataFeedIsUnhealthy(m, e, now);
      case ExposureCall(equity, total, symbol) => var _ := CheckPortfolioExposure(equity, total, symbol);
      case CanOpenCall(equity) => var _ := MayOpenTrade(equity);
      case BeginCall(op, key) => var _ := Begin(op, key);
      case EndCall(op) => End(op);
      case RecordCall(pnl, equity, current) => RecordResult(pnl, equity, current);
      case ProtectionCall(verified) => MarkProtectionState(verified);
      case MarkCall(key) => MarkEvent(key);
    }

    // Any sequence of calls: what is proved of runs holds of the object.
    method HandleAll(calls: seq<Call>)
      modifies this
      ensures View() == Run(config, old(View()), calls)
    {
      hide Apply;
      for n := 0 to |calls|
        invariant View() == Run(config, old(View()), calls[..n])
      {
        assert calls[..n + 1][..n] == calls[..n];
        Handle(calls[n]);
      }
      assert calls[..|calls|] == calls;
    }
  }

  // A new framework after any calls: the guarantees of runs, on the object's fields.
  method Session(config: Config, day: int, calls: seq<Call>) returns (f: ProductionStabilityFramework)
    ensures fresh(f) && f.View() == Run(config, Fresh(day), calls)
    ensures NoRepeats(f.processedEvents) && |f.processedEvents| <= WINDOW
    ensures forall a, b :: a in f.inFlight && b in f.inFlight && f.inFlight[a] && f.inFlight[b] ==> a == b
    ensures forall m: nat :: m > 0 && Disciplined(config, Fresh(day), calls, m) ==> WithinLimits(config, f.View(), m)
    ensures Counts(f.View(), TallyOf(day, calls))
  {
    hide Run, TallyOf, Disciplined, WithinLimits, HasHeadroom, NoRepeats, RecordsSinceApproval;
    f := new ProductionStabilityFramework(config, day);
    f.HandleAll(calls);
    WindowIsRecentAccepted(config, day, calls);
    OneOperationAtATime(config, day, calls);
    CountersAreTheCallersRecords(config, day, calls);
    forall m: nat | m > 0 && Disciplined(config, Fresh(day), calls, m) ensures WithinLimits(config, f.View(), m) {
      DisciplinedRunsStayWithinLimits(config, day, calls, m);
    }
  }
}
