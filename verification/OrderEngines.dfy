// The engines that hold the order state and change it in place.
module OrderEngines {
  import opened Wrappers
  import opened Orders

  class PortfolioRiskEngine {
    const limits: Limits
    var killSwitchActive: bool
    var dailyLossPct: real
    var openExposure: real
    var tradesToday: int
    var consecutiveLosses: int
    var alerts: seq<Reason>

    constructor (limits: Limits)
      ensures this.limits == limits && State() == RiskState(false, 0.0, 0.0, 0, 0, [])
    {
      this.limits := limits;
      killSwitchActive, dailyLossPct, openExposure := false, 0.0, 0.0;
      tradesToday, consecutiveLosses, alerts := 0, 0, [];
    }

    function State(): RiskState
      reads this
    {
      RiskState(killSwitchActive, dailyLossPct, openExposure, tradesToday, consecutiveLosses, alerts)
    }

    method ApproveSignal(sig: Signal) returns (d: Decision)
      modifies `killSwitchActive, `alerts
      ensures (State(), d) == Approve(limits, old(State()), sig)
    {
      if killSwitchActive {
        return Decision(false, KillSwitchActive, 0.0, true);
      }
      if dailyLossPct >= limits.maxDailyLossPct {
        d := TriggerKillSwitch(DailyLossLock);
        return;
      }
      if tradesToday >= limits.maxTradesPerDay {
        return Decision(false, MaxTrades, 0.0, false);
      }
      if consecutiveLosses >= limits.consecutiveLossLock {
        d := TriggerKillSwitch(LossLock);
        return;
      }
      if sig.notional > limits.maxPositionNotional {
        return Decision(true, NotionalReduced, limits.maxPositionNotional, false);
      }
      if openExposure + sig.notional > limits.maxPortfolioExposure {
        return Decision(false, ExposureLimit, 0.0, false);
      }
      return Decision(true, RiskApproved, sig.notional, false);
    }

    method TriggerKillSwitch(why: Reason) returns (d: Decision)
      modifies `killSwitchActive, `alerts
      ensures State() == Trip(old(State()), why) && d == Decision(false, why, 0.0, true)
    {
      killSwitchActive := true;
      alerts := alerts + [why];
      d := Decision(false, why, 0.0, true);
    }

    method RecordSubmittedTrade(notional: real)
      modifies `tradesToday, `openExposure
      ensures State() == Record(old(State()), notional)
    {
      tradesToday := tradesToday + 1;
      openExposure := openExposure + notional;
    }
  }

  datatype OrderState = Created | Validated | Acknowledged | Rejected

  class ManagedOrder {
    const id: string
    const intent: Intent
    var state: OrderState
    var exchangeId: Option<string>
    var protectionVerified: bool

    constructor (id: string, intent: Intent)
      ensures this.id == id && this.intent == intent
      ensures state == Validated && exchangeId == None && protectionVerified
    {
      this.id, this.intent := id, intent;
      state, exchangeId, protectionVerified := Validated, None, true;
    }
  }

  class OrderManager {
    var orders: map<string, ManagedOrder>

    // id stands for the generated client order id.
    method CreateOrder(sig: Signal, notional: real, id: string) returns (r: Result<ManagedOrder, OrderError>)
      modifies this
      ensures r.Ok? <==> MakeIntent(sig, notional).Ok?
      ensures r.Err? ==> r.error == MakeIntent(sig, notional).error && orders == old(orders)
      ensures r.Ok? ==>
                && fresh(r.value) && orders == old(orders)[id := r.value]
                && r.value.id == id && r.value.intent == MakeIntent(sig, notional).value
                && r.value.state == Validated && r.value.protectionVerified
    {
      var intent := MakeIntent(sig, notional);
      if intent.Err? {
        return Err(intent.error);
      }
      var order := new ManagedOrder(id, intent.value);
      orders := orders[id := order];
      return Ok(order);
    }

    // Answers None for an id that was never created; an empty exchange id is ignored.
    method Transition(id: string, state: OrderState, exchangeId: string) returns (r: Option<ManagedOrder>)
      modifies if id in orders then {orders[id]} else {}
      ensures r == if id in orders then Some(orders[id]) else None
      ensures id in orders ==>
                && orders[id].state == state
                && orders[id].exchangeId == (if exchangeId != "" then Some(exchangeId) else old(orders[id].exchangeId))
                && orders[id].protectionVerified == old(orders[id].protectionVerified)
    {
      if id !in orders {
        return None;
      }
      var order := orders[id];
      order.state := state;
      if exchangeId != "" {
        order.exchangeId := Some(exchangeId);
      }
      return Some(order);
    }
  }

  datatype SubmitError = Unprotected | Slipped | UnknownOrder

  class ExecutionEngine {
    const oms: OrderManager
    const risk: PortfolioRiskEngine
    const slippageThresholdBps: real
    var flattened: seq<(string, Reason)>

    constructor (oms: OrderManager, risk: PortfolioRiskEngine, threshold: real)
      ensures this.oms == oms && this.risk == risk && slippageThresholdBps == threshold && flattened == []
    {
      this.oms, this.risk, slippageThresholdBps, flattened := oms, risk, threshold, [];
    }

    // One serialized submission; `accepted` and `exchangeId` are the gateway's answer.
    // A breach trips the kill switch and flattens; otherwise the order takes the
    // gateway's answer and only an accepted order is counted.
    method Submit(order: ManagedOrder, slippageBps: real, accepted: bool, exchangeId: string)
        returns (r: Result<ManagedOrder, SubmitError>)
      modifies this, risk`killSwitchActive, risk`alerts, risk`tradesToday, risk`openExposure
      modifies if order.id in oms.orders then {oms.orders[order.id]} else {}
      ensures var why := Breach(old(order.protectionVerified), slippageBps, slippageThresholdBps);
              if why.Some? then
                && risk.State() == Trip(old(risk.State()), why.value)
                && flattened == old(flattened) + [(order.intent.symbol, why.value)]
                && r == Err(if why.value == SlippageBreach then Slipped else Unprotected)
                && (order.id in oms.orders ==> oms.orders[order.id].state == old(oms.orders[order.id].state))
              else
                && risk.State() ==
                     (if accepted then Record(old(risk.State()), order.intent.notional) else old(risk.State()))
                && flattened == old(flattened)
                && r == (if order.id in oms.orders then Ok(oms.orders[order.id]) else Err(UnknownOrder))
                && (order.id in oms.orders ==>
                      oms.orders[order.id].state == if accepted then Acknowledged else Rejected)
    {
      if !order.protectionVerified {
        var _ := risk.TriggerKillSwitch(MissingProtection);
        flattened := flattened + [(order.intent.symbol, MissingProtection)];
        return Err(Unprotected);
      }
      if slippageBps > slippageThresholdBps {
        var _ := risk.TriggerKillSwitch(SlippageBreach);
        flattened := flattened + [(order.intent.symbol, SlippageBreach)];
        return Err(Slipped);
      }
      var state := if accepted then Acknowledged else Rejected;
      if accepted {
        risk.RecordSubmittedTrade(order.intent.notional);
      }
      var moved := oms.Transition(order.id, state, exchangeId);
      return if moved.Some? then Ok(moved.value) else Err(UnknownOrder);
    }
  }
}
