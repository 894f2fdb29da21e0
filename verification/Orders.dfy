// From signal to order: consensus gates, portfolio risk approval and order
// creation, as the decisions each of them returns.
module Orders {
  import opened Wrappers

  datatype Side = Buy | Sell

  datatype Signal = Signal(
    symbol: string, side: Side, confidence: real,
    entry: real, stop: real, takeProfit: real, notional: real)

  datatype Orderflow = Orderflow(deltaImbalance: real, liquidityVacuum: bool, spreadBps: real, liquidity: real)

  // ---------------------------------------------------------------- consensus

  datatype Verdict = Verdict(score: real, veto: bool, multiplier: real)

  // The rules review: each concern adds to the score; the score decides veto and size.
  function Review(sig: Signal, regimeConfidence: real, flow: Orderflow): Verdict {
    var score := (if flow.spreadBps > 12.0 then 0.15 else 0.0)
               + (if flow.liquidity < 0.5 then 0.18 else 0.0)
               + (if regimeConfidence < 0.6 then 0.12 else 0.0)
               + (if sig.confidence < 0.6 then 0.15 else 0.0);
    Verdict(score, score > 0.35, if score > 0.35 then 0.0 else if score > 0.20 then 0.5 else 1.0)
  }

  datatype Refusal =
    | LongOnly | InvalidStop | LiquidityVacuum | SpreadTooWide | HostileImbalance | NewsBlocked | Vetoed

  // The orderflow check answers with the reason it refuses, if any.
  function VerifyOrderflow(sig: Signal, flow: Orderflow): Option<Refusal> {
    if flow.liquidityVacuum then Some(LiquidityVacuum)
    else if flow.spreadBps > 20.0 then Some(SpreadTooWide)
    else if sig.side == Buy && flow.deltaImbalance < -0.75 then Some(HostileImbalance)
    else None
  }

  // The consensus chain: the first failing gate refuses, otherwise the signal is
  // passed on with its notional scaled.
  function Consensus(sig: Signal, regimeConfidence: real, flow: Orderflow, newsClear: bool): Result<Signal, Refusal> {
    if sig.side != Buy then Err(LongOnly)
    else if sig.stop >= sig.entry then Err(InvalidStop)
    else
      var blocked := VerifyOrderflow(sig, flow);
      if blocked.Some? then Err(blocked.value)
      else if !newsClear then Err(NewsBlocked)
      else
        var v := Review(sig, regimeConfidence, flow);
        if v.veto then Err(Vetoed)
        else Ok(sig.(notional := sig.notional * v.multiplier))
  }

  // --------------------------------------------------------------------- risk

  datatype Limits = Limits(
    maxDailyLossPct: real, maxPositionNotional: real, maxPortfolioExposure: real,
    maxTradesPerDay: int, consecutiveLossLock: int)

  datatype Reason =
    | KillSwitchActive | DailyLossLock | MaxTrades | LossLock
    | NotionalReduced | ExposureLimit | RiskApproved | MissingProtection | SlippageBreach

  datatype RiskState = RiskState(
    killSwitch: bool, dailyLossPct: real, openExposure: real,
    tradesToday: int, consecutiveLosses: int, alerts: seq<Reason>)

  datatype Decision = Decision(approved: bool, reason: Reason, notional: real, killSwitch: bool)

  function Trip(s: RiskState, why: Reason): RiskState {
    s.(killSwitch := true, alerts := s.alerts + [why])
  }

  // Approval may itself trip the kill switch.  The clip branch answers before the
  // portfolio exposure is looked at.
  function Approve(l: Limits, s: RiskState, sig: Signal): (RiskState, Decision) {
    if s.killSwitch then (s, Decision(false, KillSwitchActive, 0.0, true))
    else if s.dailyLossPct >= l.maxDailyLossPct then
      (Trip(s, DailyLossLock), Decision(false, DailyLossLock, 0.0, true))
    else if s.tradesToday >= l.maxTradesPerDay then (s, Decision(false, MaxTrades, 0.0, false))
    else if s.consecutiveLosses >= l.consecutiveLossLock then
      (Trip(s, LossLock), Decision(false, LossLock, 0.0, true))
    else if sig.notional > l.maxPositionNotional then
      (s, Decision(true, NotionalReduced, l.maxPositionNotional, false))
    else if s.openExposure + sig.notional > l.maxPortfolioExposure then
      (s, Decision(false, ExposureLimit, 0.0, false))
    else (s, Decision(true, RiskApproved, sig.notional, false))
  }

  // No lock stands in the way of an approval.
  predicate Unblocked(l: Limits, s: RiskState) {
    && !s.killSwitch && s.dailyLossPct < l.maxDailyLossPct
    && s.tradesToday < l.maxTradesPerDay && s.consecutiveLosses < l.consecutiveLossLock
  }

  function Record(s: RiskState, notional: real): RiskState {
    s.(tradesToday := s.tradesToday + 1, openExposure := s.openExposure + notional)
  }

  // ------------------------------------------------------------------- orders

  datatype Intent = Intent(
    symbol: string, side: Side, quantity: real, notional: real,
    entry: real, stop: real, takeProfit: real)

  datatype OrderError = InvalidProtection | ZeroEntryPrice

  function MakeIntent(sig: Signal, notional: real): Result<Intent, OrderError> {
    if sig.stop <= 0.0 || sig.takeProfit <= sig.entry then Err(InvalidProtection)
    else if sig.entry == 0.0 then Err(ZeroEntryPrice)
    else Ok(Intent(sig.symbol, sig.side, notional / sig.entry, notional, sig.entry, sig.stop, sig.takeProfit))
  }

  // Why a submission is refused before it reaches the gateway, if it is.
  function Breach(protectionVerified: bool, slippageBps: real, thresholdBps: real): Option<Reason> {
    if !protectionVerified then Some(MissingProtection)
    else if slippageBps > thresholdBps then Some(SlippageBreach)
    else None
  }

  // A bracketed long order whose quantity is worth its notional at entry.
  predicate ProtectedBuy(o: Intent) {
    && o.side == Buy
    && 0.0 < o.stop < o.entry < o.takeProfit
    && o.quantity * o.entry == o.notional
  }

  // Consensus and order creation together admit exactly protected buys.
  lemma OrdersAreProtectedBuys(sig: Signal, regimeConfidence: real, flow: Orderflow, newsClear: bool, notional: real)
    requires Consensus(sig, regimeConfidence, flow, newsClear).Ok?
    ensures var scaled := Consensus(sig, regimeConfidence, flow, newsClear).value;
            && (MakeIntent(scaled, notional).Ok? <==> 0.0 < sig.stop && sig.entry < sig.takeProfit)
            && (MakeIntent(scaled, notional).Ok? ==> ProtectedBuy(MakeIntent(scaled, notional).value))
            && (scaled.notional == sig.notional || scaled.notional == 0.5 * sig.notional)
  {
    var scaled := Consensus(sig, regimeConfidence, flow, newsClear).value;
    if MakeIntent(scaled, notional).Ok? {
      assert notional / scaled.entry * scaled.entry == notional;
    }
  }

  // What an approval guarantees, and what the clip branch leaves out: a signal
  // above the position limit is approved whatever the open exposure is.
  lemma ApprovalMeaning(l: Limits, s: RiskState, sig: Signal)
    ensures var (s', d) := Approve(l, s, sig);
            && (d.approved <==>
                  && Unblocked(l, s)
                  && (sig.notional > l.maxPositionNotional || s.openExposure + sig.notional <= l.maxPortfolioExposure))
            && (d.approved ==> s' == s && d.notional == Min(sig.notional, l.maxPositionNotional))
            && (s.killSwitch ==> s' == s)
            && (s'.killSwitch <==> d.killSwitch)
            && (s'.killSwitch && !s.killSwitch ==> s'.alerts == s.alerts + [d.reason])
            && s'.(killSwitch := s.killSwitch, alerts := s.alerts) == s
  {}

  // -------------------------------------------------------- what consensus means

  // The concerns of the rules review.
  function Concerns(sig: Signal, regimeConfidence: real, flow: Orderflow): (n: nat)
    ensures n <= 4
  {
    (if flow.spreadBps > 12.0 then 1 else 0) + (if flow.liquidity < 0.5 then 1 else 0)
    + (if regimeConfidence < 0.6 then 1 else 0) + (if sig.confidence < 0.6 then 1 else 0)
  }

  // However they combine, one concern changes nothing, two halve the size, and three veto;
  // the score is their weight in hundredths.
  lemma ConcernsDecide(sig: Signal, regimeConfidence: real, flow: Orderflow)
    ensures var v, n := Review(sig, regimeConfidence, flow), Concerns(sig, regimeConfidence, flow);
            && (v.veto <==> n >= 3)
            && v.multiplier == (if n <= 1 then 1.0 else if n == 2 then 0.5 else 0.0)
    ensures Review(sig, regimeConfidence, flow).score * 100.0
            == (if flow.spreadBps > 12.0 then 15.0 else 0.0) + (if flow.liquidity < 0.5 then 18.0 else 0.0)
               + (if regimeConfidence < 0.6 then 12.0 else 0.0) + (if sig.confidence < 0.6 then 15.0 else 0.0)
  {}

  // The first of the gates that a signal fails, on its own numbers.
  function FirstFailing(sig: Signal, regimeConfidence: real, flow: Orderflow, newsClear: bool): Option<Refusal> {
    if sig.side == Sell then Some(LongOnly)
    else if sig.entry <= sig.stop then Some(InvalidStop)
    else if flow.liquidityVacuum then Some(LiquidityVacuum)
    else if 20.0 < flow.spreadBps then Some(SpreadTooWide)
    else if flow.deltaImbalance * 4.0 < -3.0 then Some(HostileImbalance)
    else if !newsClear then Some(NewsBlocked)
    else if Concerns(sig, regimeConfidence, flow) >= 3 then Some(Vetoed)
    else None
  }

  // Consensus passes exactly the signals that fail no gate, halved on two concerns, and
  // names the first gate that is failed.
  lemma ConsensusPassesIff(sig: Signal, regimeConfidence: real, flow: Orderflow, newsClear: bool)
    ensures var r := Consensus(sig, regimeConfidence, flow, newsClear);
            var failing := FirstFailing(sig, regimeConfidence, flow, newsClear);
            && (r.Ok? <==> failing.None?)
            && (r.Err? ==> failing == Some(r.error))
            && (r.Ok? ==> r.value == sig.(notional :=
                  if Concerns(sig, regimeConfidence, flow) == 2 then sig.notional / 2.0 else sig.notional))
  {
    ConcernsDecide(sig, regimeConfidence, flow);
    hide Review, Concerns;
  }

}
