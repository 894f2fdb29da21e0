// One pass of the application loop over the real engines, tied to the
// interleaving model with a single task.
module TradingLoop {
  import opened Wrappers
  import opened Orders
  import opened OrderEngines
  import opened Interleaving

  // Consider, create, submit.  id and exchangeId are what the id
  // generator and the gateway would answer.
  method TradeOnce(engine: ExecutionEngine, x: Input, id: string, exchangeId: string)
      returns (acknowledged: Option<Intent>)
    modifies engine, engine.oms, engine.risk
    ensures var c := Config(engine.risk.limits, engine.slippageThresholdBps);
            var after := Cycle(c, old(engine.risk.State()), x);
            && engine.risk.State() == after.risk
            && after.tasks == [Idle]
            && after.acked == (if acknowledged.Some? then [acknowledged.value] else [])
  {
    hide Review, VerifyOrderflow;
    acknowledged := None;
    var agreed := Consensus(x.sig, x.regimeConfidence, x.flow, x.newsClear);
    if agreed.Err? {
      return;
    }
    var d := engine.risk.ApproveSignal(agreed.value);
    if !d.approved {
      return;
    }
    var created := engine.oms.CreateOrder(agreed.value, d.notional, id);
    if created.Err? {
      return;
    }
    var r := engine.Submit(created.value, x.slippageBps, x.accepted, exchangeId);
    if r.Ok? && r.value.state == Acknowledged {
      acknowledged := Some(created.value.intent);
    }
  }

  // A lone task works off its signals: what is proved of passes holds of the engines.
  method TradeAll(engine: ExecutionEngine, xs: seq<Input>, ids: seq<(string, string)>)
    requires |ids| == |xs|
    modifies engine, engine.oms, engine.risk
    ensures engine.risk.State() ==
            Cycles(Config(engine.risk.limits, engine.slippageThresholdBps), old(engine.risk.State()), xs)
  {
    hide Cycle;
    for n := 0 to |xs|
      invariant engine.risk.State() ==
                Cycles(Config(engine.risk.limits, engine.slippageThresholdBps), old(engine.risk.State()), xs[..n])
    {
      assert xs[..n + 1][..n] == xs[..n];
      var _ := TradeOnce(engine, xs[n], ids[n].0, ids[n].1);
    }
    assert xs[..|xs|] == xs;
  }
}
