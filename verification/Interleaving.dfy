// K tasks that share one risk engine and one execution lock.  A task considers a
// signal (consensus, approval and order creation, with no suspension in
// between), then queues for the lock, then waits for the gateway while holding
// it.  Other tasks may consider signals at any of those points, so approval is
// checked against counters that outstanding orders have not moved yet.
module Interleaving {
  import opened Wrappers
  import opened Orders

  datatype Task =
    | Idle
    | Queued(order: Intent)       // approved, waiting for the lock
    | Submitting(order: Intent)   // holds the lock, waiting for the gateway
    | Flattening                  // holds the lock after a slippage breach

  // `late` counts the orders acknowledged while the kill switch was already active.
  datatype System = System(risk: RiskState, tasks: seq<Task>, acked: seq<Intent>, late: nat)

  datatype Step =
    | Consider(i: nat, sig: Signal, regimeConfidence: real, flow: Orderflow, newsClear: bool)
    | Acquire(i: nat, slippageBps: real)
    | Answer(i: nat, accepted: bool)
    | Release(i: nat)
    | Losses(dailyLossPct: real, consecutive: int)  // loss bookkeeping done elsewhere

  datatype Config = Config(limits: Limits, slippageThresholdBps: real)

  predicate HoldsLock(t: Task) {
    t.Submitting? || t.Flattening?
  }

  predicate Outstanding(t: Task) {
    t.Queued? || t.Submitting?
  }

  predicate LockFree(tasks: seq<Task>) {
    forall i :: 0 <= i < |tasks| ==> !HoldsLock(tasks[i])
  }

  // A step that is not enabled leaves the system as it is.
  function Next(c: Config, s: System, step: Step): System {
    match step
    case Consider(i, sig, regimeConfidence, flow, newsClear) =>
      if i < |s.tasks| && s.tasks[i].Idle? then
        var agreed := Consensus(sig, regimeConfidence, flow, newsClear);
        if agreed.Err? then s
        else
          var (risk, d) := Approve(c.limits, s.risk, agreed.value);
          var order := MakeIntent(agreed.value, d.notional);
          if d.approved && order.Ok?
          then s.(risk := risk, tasks := s.tasks[i := Queued(order.value)])
          else s.(risk := risk)
      else s
    case Acquire(i, slippageBps) =>
      if i < |s.tasks| && s.tasks[i].Queued? && LockFree(s.tasks) then
        var why := Breach(true, slippageBps, c.slippageThresholdBps);
        if why.Some?
        then s.(risk := Trip(s.risk, why.value), tasks := s.tasks[i := Flattening])
        else s.(tasks := s.tasks[i := Submitting(s.tasks[i].order)])
      else s
    case Answer(i, accepted) =>
      if i < |s.tasks| && s.tasks[i].Submitting? then
        var order := s.tasks[i].order;
        var t := s.(tasks := s.tasks[i := Idle]);
        if accepted
        then t.(risk := Record(s.risk, order.notional), acked := s.acked + [order],
                late := s.late + if s.risk.killSwitch then 1 else 0)
        else t
      else s
    case Release(i) =>
      if i < |s.tasks| && s.tasks[i].Flattening? then s.(tasks := s.tasks[i := Idle]) else s
    case Losses(dailyLossPct, consecutive) =>
      s.(risk := s.risk.(dailyLossPct := dailyLossPct, consecutiveLosses := consecutive))
  }

  function Start(k: nat): System {
    System(RiskState(false, 0.0, 0.0, 0, 0, []), seq(k, _ => Idle), [], 0)
  }

  function Reach(c: Config, k: nat, run: seq<Step>): System {
    if run == [] then Start(k) else Next(c, Reach(c, k, run[..|run| - 1]), run[|run| - 1])
  }

  // ------------------------------------------------- counting outstanding work

  function Count(tasks: seq<Task>): nat {
    if tasks == [] then 0
    else Count(tasks[..|tasks| - 1]) + if Outstanding(tasks[|tasks| - 1]) then 1 else 0
  }

  // Notional that is approved but not yet counted as exposure.
  function Reserved(tasks: seq<Task>): real {
    if tasks == [] then 0.0
    else Reserved(tasks[..|tasks| - 1]) +
         if Outstanding(tasks[|tasks| - 1]) then tasks[|tasks| - 1].order.notional else 0.0
  }

  function Sum(orders: seq<Intent>): real {
    if orders == [] then 0.0 else Sum(orders[..|orders| - 1]) + orders[|orders| - 1].notional
  }

  lemma {:induction false} CountUpdate(tasks: seq<Task>, i: nat, t: Task)
    requires i < |tasks|
    ensures Count(tasks[i := t]) + (if Outstanding(tasks[i]) then 1 else 0)
            == Count(tasks) + if Outstanding(t) then 1 else 0
    ensures Reserved(tasks[i := t]) + (if Outstanding(tasks[i]) then tasks[i].order.notional else 0.0)
            == Reserved(tasks) + if Outstanding(t) then t.order.notional else 0.0
    decreases |tasks|
  {
    var n := |tasks| - 1;
    if i == n {
      assert tasks[i := t][..n] == tasks[..n];
    } else {
      assert tasks[i := t][..n] == tasks[..n][i := t];
      CountUpdate(tasks[..n], i, t);
    }
  }

  lemma {:induction false} CountAtMost(tasks: seq<Task>)
    ensures Count(tasks) <= |tasks|
    decreases |tasks|
  {
    if tasks != [] { CountAtMost(tasks[..|tasks| - 1]); }
  }

  // A task that has no outstanding order leaves at most the others.
  lemma OthersOutstanding(tasks: seq<Task>, i: nat, order: Intent)
    requires i < |tasks| && !Outstanding(tasks[i])
    ensures Count(tasks) <= |tasks| - 1
  {
    CountUpdate(tasks, i, Queued(order));
    CountAtMost(tasks[i := Queued(order)]);
  }

  lemma {:induction false} SumBound(orders: seq<Intent>, cap: real)
    requires forall o :: o in orders ==> o.notional <= cap
    ensures Sum(orders) <= |orders| as real * cap
    decreases |orders|
  {
    if orders != [] { SumBound(orders[..|orders| - 1], cap); }
  }

  // ------------------------------------------------------------- the invariant

  predicate Admissible(c: Config, o: Intent) {
    ProtectedBuy(o) && o.notional <= c.limits.maxPositionNotional
  }

  // The most trades that can be recorded or outstanding with k tasks.
  function TradeCap(c: Config, k: nat): int {
    if c.limits.maxTradesPerDay + k > 0 then c.limits.maxTradesPerDay + k - 1 else 0
  }

  ghost predicate Safe(c: Config, k: nat, s: System) {
    && |s.tasks| == k
    && (forall i, j :: 0 <= i < k && 0 <= j < k && HoldsLock(s.tasks[i]) && HoldsLock(s.tasks[j]) ==> i == j)
    && (forall i :: 0 <= i < k && Outstanding(s.tasks[i]) ==> Admissible(c, s.tasks[i].order))
    && (forall o :: o in s.acked ==> Admissible(c, o))
    && s.risk.tradesToday == |s.acked| && s.risk.openExposure == Sum(s.acked)
    && s.risk.tradesToday + Count(s.tasks) <= TradeCap(c, k)
    && (if s.risk.killSwitch then s.late + Count(s.tasks) <= k - 1 else s.late == 0)
  }

  lemma ConsiderKeepsSafe(c: Config, k: nat, s: System, step: Step)
    requires k > 0 && Safe(c, k, s) && step.Consider?
    ensures Safe(c, k, Next(c, s, step))
  {
    var i := step.i;
    if i < k && s.tasks[i].Idle? {
      var agreed := Consensus(step.sig, step.regimeConfidence, step.flow, step.newsClear);
      if agreed.Ok? {
        var (risk, d) := Approve(c.limits, s.risk, agreed.value);
        var order := MakeIntent(agreed.value, d.notional);
        ApprovalMeaning(c.limits, s.risk, agreed.value);
        OrdersAreProtectedBuys(step.sig, step.regimeConfidence, step.flow, step.newsClear, d.notional);
        if d.approved && order.Ok? {
          CountUpdate(s.tasks, i, Queued(order.value));
          CountAtMost(s.tasks[i := Queued(order.value)]);
        } else {
          OthersOutstanding(s.tasks, i, Intent("", Buy, 0.0, 0.0, 0.0, 0.0, 0.0));
        }
      }
    }
  }

  lemma AcquireKeepsSafe(c: Config, k: nat, s: System, step: Step)
    requires k > 0 && Safe(c, k, s) && step.Acquire?
    ensures Safe(c, k, Next(c, s, step))
  {
    var i := step.i;
    if i < k && s.tasks[i].Queued? && LockFree(s.tasks) {
      hide Count, Reserved, Sum, Admissible;
      CountUpdate(s.tasks, i, Flattening);
      CountUpdate(s.tasks, i, Submitting(s.tasks[i].order));
      OthersOutstanding(s.tasks[i := Flattening], i, s.tasks[i].order);
    }
  }

  lemma AnswerKeepsSafe(c: Config, k: nat, s: System, step: Step)
    requires k > 0 && Safe(c, k, s) && step.Answer?
    ensures Safe(c, k, Next(c, s, step))
  {
    if step.i < k && s.tasks[step.i].Submitting? {
      hide Count, Reserved, Sum, Admissible;
      CountUpdate(s.tasks, step.i, Idle);
      SumAppend(s.acked, s.tasks[step.i].order);
    }
  }

  lemma SumAppend(orders: seq<Intent>, order: Intent)
    ensures Sum(orders + [order]) == Sum(orders) + order.notional
  {
    assert (orders + [order])[..|orders|] == orders;
  }

  lemma ReleaseKeepsSafe(c: Config, k: nat, s: System, step: Step)
    requires k > 0 && Safe(c, k, s) && step.Release?
    ensures Safe(c, k, Next(c, s, step))
  {
    if step.i < k && s.tasks[step.i].Flattening? {
      CountUpdate(s.tasks, step.i, Idle);
    }
  }

  lemma LossesKeepSafe(c: Config, k: nat, s: System, step: Step)
    requires Safe(c, k, s) && step.Losses?
    ensures Safe(c, k, Next(c, s, step))
  {}

  lemma {:induction false} IdleCount(k: nat)
    ensures Count(seq(k, _ => Idle)) == 0 && Reserved(seq(k, _ => Idle)) == 0.0
  {
    if k > 0 {
      IdleCount(k - 1);
      assert seq(k, _ => Idle)[..k - 1] == seq(k - 1, _ => Idle);
    }
  }

  // Whatever the interleaving, the system is safe.
  lemma {:induction false} EveryRunIsSafe(c: Config, k: nat, run: seq<Step>)
    requires k > 0
    ensures Safe(c, k, Reach(c, k, run))
    decreases |run|
  {
    hide Next, Count;
    if run == [] {
      IdleCount(k);
    } else {
      var p, step := run[..|run| - 1], run[|run| - 1];
      EveryRunIsSafe(c, k, p);
      var s := Reach(c, k, p);
      match step
      case Consider(_, _, _, _, _) => ConsiderKeepsSafe(c, k, s, step);
      case Acquire(_, _) => AcquireKeepsSafe(c, k, s, step);
      case Answer(_, _) => AnswerKeepsSafe(c, k, s, step);
      case Release(_) => ReleaseKeepsSafe(c, k, s, step);
      case Losses(_, _) => LossesKeepSafe(c, k, s, step);
    }
  }

  // ------------------------------------------------------------- main results

  // Trades recorded today plus approvals in flight overshoot the daily limit by
  // at most the other k - 1 tasks.
  lemma TradesStayWithinCap(c: Config, k: nat, run: seq<Step>)
    requires k > 0
    ensures var s := Reach(c, k, run);
            && s.risk.tradesToday == |s.acked|
            && s.risk.tradesToday + Count(s.tasks) <= TradeCap(c, k)
            && (c.limits.maxTradesPerDay >= 0 ==> s.risk.tradesToday <= c.limits.maxTradesPerDay + k - 1)
  {
    EveryRunIsSafe(c, k, run);
  }

  // Exposure is exactly the acknowledged notional and at most one position limit per trade.
  lemma ExposureFollowsTrades(c: Config, k: nat, run: seq<Step>)
    requires k > 0
    ensures var s := Reach(c, k, run);
            && s.risk.openExposure == Sum(s.acked)
            && s.risk.openExposure <= s.risk.tradesToday as real * c.limits.maxPositionNotional
  {
    hide Reach, Sum;
    EveryRunIsSafe(c, k, run);
    var s := Reach(c, k, run);
    SumBound(s.acked, c.limits.maxPositionNotional);
    assert s.risk.tradesToday as real == |s.acked| as real;
  }

  // Only orders approved before the trip can still be acknowledged, and the task
  // that trips the switch has none: at most k - 1 late acknowledgements.
  lemma FewLateAcknowledgements(c: Config, k: nat, run: seq<Step>)
    requires k > 0
    ensures Reach(c, k, run).late <= k - 1
  {
    EveryRunIsSafe(c, k, run);
  }

  // Submission is serialized and every acknowledged order is a protected buy.
  lemma SubmissionsAreSerialAndProtected(c: Config, k: nat, run: seq<Step>)
    requires k > 0
    ensures var s := Reach(c, k, run);
            && |s.tasks| == k
            && (forall i, j :: 0 <= i < j < k ==>
                  !((s.tasks[i].Submitting? || s.tasks[i].Flattening?)
                    && (s.tasks[j].Submitting? || s.tasks[j].Flattening?)))
            && forall o :: o in s.acked ==> ProtectedBuy(o)
  {
    EveryRunIsSafe(c, k, run);
  }

  // Losses reported from elsewhere stop the next signal that agrees: nothing is queued once
  // a loss limit or the daily count is reached, and the switch is tripped, with one alert,
  // exactly for a loss.
  lemma LossesStopNewOrders(c: Config, s: System, dailyLossPct: real, consecutive: int, step: Step)
    requires !s.risk.killSwitch && step.Consider? && step.i < |s.tasks| && s.tasks[step.i].Idle?
    requires Consensus(step.sig, step.regimeConfidence, step.flow, step.newsClear).Ok?
    ensures var t := Next(c, Next(c, s, Losses(dailyLossPct, consecutive)), step);
            var full := s.risk.tradesToday >= c.limits.maxTradesPerDay;
            var lossDay := dailyLossPct >= c.limits.maxDailyLossPct;
            var losing := consecutive >= c.limits.consecutiveLossLock;
            && (full || lossDay || losing ==> t.tasks == s.tasks)
            && (t.risk.killSwitch <==> lossDay || (losing && !full))
            && (t.risk.killSwitch ==> t.risk.alerts == s.risk.alerts + [if lossDay then DailyLossLock else LossLock])
            && t.acked == s.acked && t.risk.tradesToday == s.risk.tradesToday
  {
    hide Consensus, MakeIntent;
  }

  // No considered signal is above the position limit after scaling.
  ghost predicate Unclipped(c: Config, step: Step) {
    step.Consider? ==>
      var agreed := Consensus(step.sig, step.regimeConfidence, step.flow, step.newsClear);
      agreed.Ok? ==> agreed.value.notional <= c.limits.maxPositionNotional
  }

  // What the outstanding orders can still add to the exposure.
  function Demand(tasks: seq<Task>): real {
    if tasks == [] then 0.0
    else Demand(tasks[..|tasks| - 1]) + TaskDemand(tasks[|tasks| - 1])
  }

  function TaskDemand(t: Task): real {
    if Outstanding(t) then Max(0.0, t.order.notional) else 0.0
  }

  lemma {:induction false} DemandUpdate(tasks: seq<Task>, i: nat, t: Task)
    requires i < |tasks|
    ensures Demand(tasks[i := t]) + TaskDemand(tasks[i]) == Demand(tasks) + TaskDemand(t)
    decreases |tasks|
  {
    hide TaskDemand;
    var n := |tasks| - 1;
    if i == n {
      assert tasks[i := t][..n] == tasks[..n];
    } else {
      assert tasks[i := t][..n] == tasks[..n][i := t];
      DemandUpdate(tasks[..n], i, t);
    }
  }

  // The demand covers the reservations, and is at most one position limit per task.
  lemma {:induction false} DemandBounds(tasks: seq<Task>, cap: real)
    requires cap >= 0.0
    requires forall i :: 0 <= i < |tasks| && Outstanding(tasks[i]) ==> tasks[i].order.notional <= cap
    ensures Reserved(tasks) <= Demand(tasks) && 0.0 <= Demand(tasks) <= Scaled(|tasks|, cap)
    decreases |tasks|
  {
    if tasks != [] {
      DemandBounds(tasks[..|tasks| - 1], cap);
      ScaledNext(|tasks| - 1, cap);
    } else {
      assert Scaled(0, cap) == 0.0;
    }
  }

  function Scaled(n: int, cap: real): real {
    n as real * cap
  }

  lemma ScaledNext(n: int, cap: real)
    ensures Scaled(n + 1, cap) == Scaled(n, cap) + cap
  {}

  // How far the exposure may exceed the portfolio limit: one position limit per other task.
  function Overshoot(c: Config, k: nat): real {
    Scaled(k - 1, Max(0.0, c.limits.maxPositionNotional))
  }

  // Without clipping, exposure plus reservations exceed the portfolio limit by at most
  // one position limit per other task, and so does the exposure itself.
  lemma ExposureStaysWithinLimit(c: Config, k: nat, run: seq<Step>)
    requires k > 0 && c.limits.maxPortfolioExposure >= 0.0
    requires forall n :: 0 <= n < |run| ==> Unclipped(c, run[n])
    ensures var s := Reach(c, k, run);
            && s.risk.openExposure <= c.limits.maxPortfolioExposure + Overshoot(c, k)
            && s.risk.openExposure + Reserved(s.tasks) <= c.limits.maxPortfolioExposure + Overshoot(c, k)
  {
    hide Reach, Reserved, Demand, Overshoot;
    DemandStaysWithinLimit(c, k, run);
    EveryRunIsSafe(c, k, run);
    DemandBounds(Reach(c, k, run).tasks, Max(0.0, c.limits.maxPositionNotional));
  }

  lemma {:induction false} DemandStaysWithinLimit(c: Config, k: nat, run: seq<Step>)
    requires k > 0 && c.limits.maxPortfolioExposure >= 0.0
    requires forall n :: 0 <= n < |run| ==> Unclipped(c, run[n])
    ensures var s := Reach(c, k, run);
            s.risk.openExposure + Demand(s.tasks) <= c.limits.maxPortfolioExposure + Overshoot(c, k)
    decreases |run|
  {
    hide Next, Consensus, Count, Sum, Overshoot, Unclipped, Demand;
    OvershootIsPositive(c, k);
    if run == [] {
      IdleDemand(k);
    } else {
      var p := run[..|run| - 1];
      DemandStaysWithinLimit(c, k, p);
      EveryRunIsSafe(c, k, p);
      assert Unclipped(c, run[|run| - 1]);
      DemandStep(c, k, Reach(c, k, p), run[|run| - 1]);
    }
  }

  lemma OvershootIsPositive(c: Config, k: nat)
    requires k > 0
    ensures Overshoot(c, k) >= 0.0
  {
    NonNegativeProduct((k - 1) as real, Max(0.0, c.limits.maxPositionNotional));
  }

  lemma NonNegativeProduct(a: real, b: real)
    requires a >= 0.0 && b >= 0.0
    ensures a * b >= 0.0
  {}

  lemma {:induction false} IdleDemand(k: nat)
    ensures Demand(seq(k, _ => Idle)) == 0.0
  {
    if k > 0 {
      IdleDemand(k - 1);
      assert seq(k, _ => Idle)[..k - 1] == seq(k - 1, _ => Idle);
    }
  }

  // Only an approval raises exposure plus demand, and it is given against the exposure
  // while the other tasks demand at most a position limit each.
  lemma DemandStep(c: Config, k: nat, s: System, step: Step)
    requires k > 0 && Safe(c, k, s) && Unclipped(c, step)
    requires s.risk.openExposure + Demand(s.tasks) <= c.limits.maxPortfolioExposure + Overshoot(c, k)
    ensures var t := Next(c, s, step);
            t.risk.openExposure + Demand(t.tasks) <= c.limits.maxPortfolioExposure + Overshoot(c, k)
  {
    hide Review, VerifyOrderflow, Demand, Count, Reserved, Sum, Overshoot;
    var t := Next(c, s, step);
    if t.tasks != s.tasks {
      var i := step.i;
      DemandUpdate(s.tasks, i, t.tasks[i]);
      if step.Consider? {
        OthersDemand(c, k, s, i);
      }
    }
  }

  // A task with nothing outstanding leaves the demand to the others.
  lemma OthersDemand(c: Config, k: nat, s: System, i: nat)
    requires k > 0 && Safe(c, k, s) && i < k && !Outstanding(s.tasks[i])
    ensures Demand(s.tasks) <= Overshoot(c, k)
  {
    hide Demand, Count, Reserved, Sum;
    var cap := Max(0.0, c.limits.maxPositionNotional);
    var order := Intent("", Buy, 0.0, cap, 0.0, 0.0, 0.0);
    DemandUpdate(s.tasks, i, Queued(order));
    DemandBounds(s.tasks[i := Queued(order)], cap);
    ScaledNext(k - 1, cap);
  }

  lemma OneTaskNeverOvershoots(c: Config, run: seq<Step>)
    requires c.limits.maxPortfolioExposure >= 0.0
    requires forall n :: 0 <= n < |run| ==> Unclipped(c, run[n])
    ensures Reach(c, 1, run).risk.openExposure <= c.limits.maxPortfolioExposure
  {
    hide Reach, Unclipped;
    ExposureStaysWithinLimit(c, 1, run);
    assert Overshoot(c, 1) == 0.0;
  }

  // ----------------------------------------------------------- the bounds bite

  const PLAIN_SIGNAL := Signal("", Buy, 1.0, 2.0, 1.0, 3.0, 1.0)
  const CALM_FLOW := Orderflow(0.0, false, 0.0, 1.0)
  const PLAIN_ORDER := Intent("", Buy, 0.5, 1.0, 2.0, 1.0, 3.0)

  lemma PlainSignalPasses()
    ensures Consensus(PLAIN_SIGNAL, 1.0, CALM_FLOW, true) == Ok(PLAIN_SIGNAL)
    ensures MakeIntent(PLAIN_SIGNAL, 1.0) == Ok(PLAIN_ORDER)
  {}

  // At least one trade a day, and room for a whole day of plain signals.
  predicate RoomyConfig(c: Config) {
    && c.limits.maxTradesPerDay >= 1 && c.limits.consecutiveLossLock > 0 && c.limits.maxDailyLossPct > 0.0
    && c.limits.maxPositionNotional >= 1.0 && c.limits.maxPortfolioExposure >= c.limits.maxTradesPerDay as real
    && c.slippageThresholdBps >= 0.0
  }

  // The risk state after n plain trades.
  function Traded(n: nat): RiskState {
    Start(0).risk.(tradesToday := n, openExposure := n as real)
  }

  lemma PlainSignalQueues(c: Config, s: System, i: nat, n: nat)
    requires RoomyConfig(c) && s.risk == Traded(n) && n < c.limits.maxTradesPerDay && i < |s.tasks| && s.tasks[i].Idle?
    ensures Next(c, s, Consider(i, PLAIN_SIGNAL, 1.0, CALM_FLOW, true)) ==
            s.(tasks := s.tasks[i := Queued(PLAIN_ORDER)])
  {
    hide Consensus, MakeIntent;
    PlainSignalPasses();
  }

  // Acquiring the free lock and an accepting answer record a queued plain order.
  lemma PlainOrderIsRecorded(c: Config, s: System, i: nat, n: nat)
    requires RoomyConfig(c) && s.risk == Traded(n) && i < |s.tasks| && s.tasks[i] == Queued(PLAIN_ORDER)
             && LockFree(s.tasks)
    ensures var t := Next(c, Next(c, s, Acquire(i, 0.0)), Answer(i, true));
            t.risk == Traded(n + 1) && t.tasks == s.tasks[i := Idle]
  {}

  lemma Extend(c: Config, k: nat, run: seq<Step>, step: Step)
    ensures Reach(c, k, run + [step]) == Next(c, Reach(c, k, run), step)
  {
    assert (run + [step])[..|run|] == run;
  }

  function IdleTasks(k: nat): seq<Task> {
    seq(k, _ => Idle)
  }

  // Every considered signal is the plain one.
  ghost predicate PlainRun(run: seq<Step>) {
    forall n :: 0 <= n < |run| && run[n].Consider? ==>
      run[n] == Consider(run[n].i, PLAIN_SIGNAL, 1.0, CALM_FLOW, true)
  }

  // Task i submits and records its queued order.
  lemma RecordOne(c: Config, k: nat, before: seq<Step>, i: nat, n: nat) returns (run: seq<Step>)
    requires RoomyConfig(c) && PlainRun(before)
    requires var s := Reach(c, k, before);
             s.risk == Traded(n) && i < |s.tasks| && s.tasks[i] == Queued(PLAIN_ORDER) && LockFree(s.tasks)
    ensures var t := Reach(c, k, run);
            t.risk == Traded(n + 1) && t.tasks == Reach(c, k, before).tasks[i := Idle]
    ensures PlainRun(run)
  {
    hide Next, Reach;
    var acquired := before + [Acquire(i, 0.0)];
    run := acquired + [Answer(i, true)];
    Extend(c, k, before, Acquire(i, 0.0));
    Extend(c, k, acquired, Answer(i, true));
    PlainOrderIsRecorded(c, Reach(c, k, before), i, n);
  }

  // One task can trade alone until one trade is left.
  lemma {:induction false} OneTaskTrades(c: Config, k: nat, n: nat) returns (run: seq<Step>)
    requires RoomyConfig(c) && k > 0 && n < c.limits.maxTradesPerDay
    ensures Reach(c, k, run).risk == Traded(n) && Reach(c, k, run).tasks == IdleTasks(k) && PlainRun(run)
  {
    hide Next;
    if n == 0 {
      run := [];
    } else {
      hide Reach;
      var before := OneTaskTrades(c, k, n - 1);
      var step := Consider(0, PLAIN_SIGNAL, 1.0, CALM_FLOW, true);
      Extend(c, k, before, step);
      PlainSignalQueues(c, Reach(c, k, before), 0, n - 1);
      run := RecordOne(c, k, before + [step], 0, n - 1);
      assert IdleTasks(k)[0 := Queued(PLAIN_ORDER)][0 := Idle] == IdleTasks(k);
    }
  }

  // The first task holds the lock and the next ones are approved and wait for it.
  function WaitingTasks(k: nat, m: nat): seq<Task> {
    seq(k, i => if i == 0 then Submitting(PLAIN_ORDER) else if i < m then Queued(PLAIN_ORDER) else Idle)
  }

  // The first task takes the free lock at once; while it waits for the gateway, m - 1
  // others are approved, before its trade is counted.
  lemma {:induction false} AllCanQueue(c: Config, k: nat, n: nat, m: nat) returns (run: seq<Step>)
    requires RoomyConfig(c) && n < c.limits.maxTradesPerDay && 0 < m <= k
    ensures Reach(c, k, run).risk == Traded(n) && PlainRun(run)
    ensures Reach(c, k, run).tasks == WaitingTasks(k, m)
  {
    hide Next, Reach;
    if m == 1 {
      var before := OneTaskTrades(c, k, n);
      var queued := before + [Consider(0, PLAIN_SIGNAL, 1.0, CALM_FLOW, true)];
      run := queued + [Acquire(0, 0.0)];
      Extend(c, k, before, Consider(0, PLAIN_SIGNAL, 1.0, CALM_FLOW, true));
      PlainSignalQueues(c, Reach(c, k, before), 0, n);
      Extend(c, k, queued, Acquire(0, 0.0));
      TakesFreeLock(c, Reach(c, k, queued), 0);
      assert IdleTasks(k)[0 := Queued(PLAIN_ORDER)][0 := Submitting(PLAIN_ORDER)] == WaitingTasks(k, 1);
    } else {
      var before := AllCanQueue(c, k, n, m - 1);
      var step := Consider(m - 1, PLAIN_SIGNAL, 1.0, CALM_FLOW, true);
      run := before + [step];
      Extend(c, k, before, step);
      PlainSignalQueues(c, Reach(c, k, before), m - 1, n);
      assert WaitingTasks(k, m) == WaitingTasks(k, m - 1)[m - 1 := Queued(PLAIN_ORDER)];
    }
  }

  lemma TakesFreeLock(c: Config, s: System, i: nat)
    requires c.slippageThresholdBps >= 0.0 && i < |s.tasks| && s.tasks[i] == Queued(PLAIN_ORDER) && LockFree(s.tasks)
    ensures Next(c, s, Acquire(i, 0.0)) == s.(tasks := s.tasks[i := Submitting(PLAIN_ORDER)])
  {}

  // The gateway's answer to the first task, while the others wait.
  lemma FirstIsAnswered(c: Config, k: nat, s: System, n: nat, accepted: bool)
    requires k > 0 && s.risk == Traded(n) && s.tasks == WaitingTasks(k, k)
    ensures var t := Next(c, s, Answer(0, accepted));
            && t.risk == (if accepted then Traded(n + 1) else Traded(n)) && t.tasks == ClearedTasks(k, 1)
  {
    assert WaitingTasks(k, k)[0 := Idle] == ClearedTasks(k, 1);
  }

  // The first m tasks have nothing outstanding any more, the others wait for the lock.
  function ClearedTasks(k: nat, m: nat): seq<Task> {
    seq(k, i => if i < m then Idle else Queued(PLAIN_ORDER))
  }

  lemma {:induction false} AllCanSubmit(c: Config, k: nat, n: nat, m: nat) returns (run: seq<Step>)
    requires RoomyConfig(c) && n < c.limits.maxTradesPerDay && 0 < m <= k
    ensures Reach(c, k, run).risk == Traded(n + m) && PlainRun(run)
    ensures Reach(c, k, run).tasks == ClearedTasks(k, m)
  {
    hide Next, Reach;
    if m == 1 {
      var before := AllCanQueue(c, k, n, k);
      run := before + [Answer(0, true)];
      Extend(c, k, before, Answer(0, true));
      FirstIsAnswered(c, k, Reach(c, k, before), n, true);
    } else {
      var before := AllCanSubmit(c, k, n, m - 1);
      run := RecordOne(c, k, before, m - 1, n + m - 1);
      assert ClearedTasks(k, m - 1)[m - 1 := Idle] == ClearedTasks(k, m);
    }
  }

  // The cap on trades is reached for every daily limit and every number of tasks: all
  // but one trade by one task, then one approval each before its last is counted.
  lemma CapIsReached(c: Config, k: nat) returns (run: seq<Step>)
    requires RoomyConfig(c) && k > 0
    ensures Reach(c, k, run).risk.tradesToday == c.limits.maxTradesPerDay + k - 1 == TradeCap(c, k)
  {
    hide Reach;
    run := AllCanSubmit(c, k, c.limits.maxTradesPerDay - 1, k);
  }

  // The overshoot of the portfolio limit is reached: with a position limit of one plain
  // signal, and a portfolio limit that the trades of a day just fill.
  lemma OvershootIsReached(c: Config, k: nat) returns (run: seq<Step>)
    requires RoomyConfig(c) && k > 0
    requires c.limits.maxPositionNotional == 1.0 && c.limits.maxPortfolioExposure == c.limits.maxTradesPerDay as real
    ensures forall n :: 0 <= n < |run| ==> Unclipped(c, run[n])
    ensures Reach(c, k, run).risk.openExposure == c.limits.maxPortfolioExposure + Overshoot(c, k)
  {
    hide Reach, Consensus;
    run := AllCanSubmit(c, k, c.limits.maxTradesPerDay - 1, k);
    PlainSignalPasses();
  }

  // An approval given before the trip is acknowledged after it.
  lemma LateAnswer(c: Config, s: System, i: nat)
    requires c.slippageThresholdBps >= 0.0 && s.risk.killSwitch
    requires i < |s.tasks| && s.tasks[i] == Queued(PLAIN_ORDER) && LockFree(s.tasks)
    ensures var t := Next(c, Next(c, s, Acquire(i, 0.0)), Answer(i, true));
            t.late == s.late + 1 && t.risk.killSwitch && t.tasks == s.tasks[i := Idle]
  {}

  lemma TripWithSlippage(c: Config, s: System, i: nat)
    requires i < |s.tasks| && s.tasks[i] == Queued(PLAIN_ORDER) && LockFree(s.tasks)
    ensures var t := Next(c, Next(c, s, Acquire(i, c.slippageThresholdBps + 1.0)), Release(i));
            t.risk.killSwitch && t.late == s.late && t.tasks == s.tasks[i := Idle]
  {}

  // After the first order is rejected its task is approved again and waits behind the
  // others, all of them approved.
  lemma AllApproved(c: Config, k: nat) returns (run: seq<Step>)
    requires RoomyConfig(c) && k > 0
    ensures Reach(c, k, run).risk == Traded(0) && Reach(c, k, run).tasks == ClearedTasks(k, 0)
  {
    hide Next, Reach;
    var waiting := AllCanQueue(c, k, 0, k);
    var answered := waiting + [Answer(0, false)];
    run := answered + [Consider(0, PLAIN_SIGNAL, 1.0, CALM_FLOW, true)];
    Extend(c, k, waiting, Answer(0, false));
    FirstIsAnswered(c, k, Reach(c, k, waiting), 0, false);
    Extend(c, k, answered, Consider(0, PLAIN_SIGNAL, 1.0, CALM_FLOW, true));
    PlainSignalQueues(c, Reach(c, k, answered), 0, 0);
    assert ClearedTasks(k, 1)[0 := Queued(PLAIN_ORDER)] == ClearedTasks(k, 0);
  }

  // The second task has tripped the switch and m more have been acknowledged.
  function LateTasks(k: nat, m: nat): seq<Task> {
    seq(k, i => if 1 <= i < m + 2 then Idle else Queued(PLAIN_ORDER))
  }

  // One task more takes the lock and is acknowledged late.
  lemma AnswerLate(c: Config, k: nat, before: seq<Step>, i: nat) returns (run: seq<Step>)
    requires RoomyConfig(c)
    requires var s := Reach(c, k, before);
             s.risk.killSwitch && i < |s.tasks| && s.tasks[i] == Queued(PLAIN_ORDER) && LockFree(s.tasks)
    ensures var s, t := Reach(c, k, before), Reach(c, k, run);
            t.risk.killSwitch && t.late == s.late + 1 && t.tasks == s.tasks[i := Idle]
  {
    hide Next, Reach;
    var acquired := before + [Acquire(i, 0.0)];
    run := acquired + [Answer(i, true)];
    Extend(c, k, before, Acquire(i, 0.0));
    Extend(c, k, acquired, Answer(i, true));
    LateAnswer(c, Reach(c, k, before), i);
  }

  lemma {:induction false} AllAnswerLate(c: Config, k: nat, m: nat) returns (run: seq<Step>)
    requires RoomyConfig(c) && m + 2 <= k
    ensures var s := Reach(c, k, run);
            s.risk.killSwitch && s.late == m && s.tasks == LateTasks(k, m)
  {
    hide Next, Reach;
    if m == 0 {
      var approved := AllApproved(c, k);
      NothingLateYet(c, k, approved);
      var acquired := approved + [Acquire(1, c.slippageThresholdBps + 1.0)];
      run := acquired + [Release(1)];
      Extend(c, k, approved, Acquire(1, c.slippageThresholdBps + 1.0));
      Extend(c, k, acquired, Release(1));
      TripWithSlippage(c, Reach(c, k, approved), 1);
      assert ClearedTasks(k, 0)[1 := Idle] == LateTasks(k, 0);
    } else {
      var before := AllAnswerLate(c, k, m - 1);
      run := AnswerLate(c, k, before, m + 1);
      assert LateTasks(k, m - 1)[m + 1 := Idle] == LateTasks(k, m);
    }
  }

  lemma NothingLateYet(c: Config, k: nat, run: seq<Step>)
    requires k > 0 && !Reach(c, k, run).risk.killSwitch
    ensures Reach(c, k, run).late == 0
  {
    EveryRunIsSafe(c, k, run);
  }

  // The bound on late acknowledgements is reached for every number of tasks: the others
  // are acknowledged in turn, and last the first one, approved again before the trip.
  lemma LateBoundIsReached(c: Config, k: nat) returns (run: seq<Step>)
    requires RoomyConfig(c) && k > 0
    ensures Reach(c, k, run).late == k - 1
  {
    if k == 1 {
      run := [];
    } else {
      var before := AllAnswerLate(c, k, k - 2);
      run := AnswerLate(c, k, before, 0);
    }
  }

  // ------------------------------------------------------- one task and clipping

  // What one pass of a lone task is given.
  datatype Input = Input(sig: Signal, regimeConfidence: real, flow: Orderflow, newsClear: bool, slippageBps: real,
      accepted: bool)

  // The four steps a lone task takes for one signal; steps that a refusal or a
  // breach makes impossible are not enabled and change nothing.
  function Steps(x: Input): seq<Step> {
    [Consider(0, x.sig, x.regimeConfidence, x.flow, x.newsClear), Acquire(0, x.slippageBps), Answer(0, x.accepted),
        Release(0)]
  }

  function CycleFrom(c: Config, s: System, x: Input): System {
    Next(c, Next(c, Next(c, Next(c, s, Steps(x)[0]), Steps(x)[1]), Steps(x)[2]), Steps(x)[3])
  }

  function Cycle(c: Config, risk: RiskState, x: Input): System {
    CycleFrom(c, System(risk, [Idle], [], 0), x)
  }

  function Cycles(c: Config, risk: RiskState, xs: seq<Input>): RiskState {
    if xs == [] then risk else Cycle(c, Cycles(c, risk, xs[..|xs| - 1]), xs[|xs| - 1]).risk
  }

  // A pass that records a trade: every gate lets it through.
  predicate Acknowledges(c: Config, risk: RiskState, x: Input) {
    var agreed := Consensus(x.sig, x.regimeConfidence, x.flow, x.newsClear);
    && agreed.Ok? && Unblocked(c.limits, risk)
    && (agreed.value.notional > c.limits.maxPositionNotional
        || risk.openExposure + agreed.value.notional <= c.limits.maxPortfolioExposure)
    && 0.0 < x.sig.stop && x.sig.entry < x.sig.takeProfit
    && x.slippageBps <= c.slippageThresholdBps && x.accepted
  }

  // The scaled notional the consensus passes on.
  function ScaledNotional(x: Input): real {
    var agreed := Consensus(x.sig, x.regimeConfidence, x.flow, x.newsClear);
    if agreed.Ok? then agreed.value.notional else 0.0
  }

  // What one pass adds to the exposure.
  lemma CycleEffect(c: Config, risk: RiskState, x: Input)
    ensures var after := Cycle(c, risk, x);
            && after.tasks == [Idle]
            && after.risk.openExposure == risk.openExposure +
                 if Acknowledges(c, risk, x) then Min(ScaledNotional(x), c.limits.maxPositionNotional) else 0.0
  {
    hide Review, VerifyOrderflow;
    var agreed := Consensus(x.sig, x.regimeConfidence, x.flow, x.newsClear);
    if agreed.Ok? {
      ApprovalMeaning(c.limits, risk, agreed.value);
      var d := Approve(c.limits, risk, agreed.value).1;
      OrdersAreProtectedBuys(x.sig, x.regimeConfidence, x.flow, x.newsClear, d.notional);
      hide Consensus, Approve, MakeIntent;
    }
  }

  // Every gate lets the signal through, it is clipped, and a full position limit does
  // not fit under the portfolio limit any more.
  predicate ClipOvershoots(c: Config, risk: RiskState, x: Input) {
    && Acknowledges(c, risk, x)
    && ScaledNotional(x) > c.limits.maxPositionNotional
    && risk.openExposure + c.limits.maxPositionNotional > c.limits.maxPortfolioExposure
  }

  // A single task leaves the portfolio limit with a pass exactly when that pass clips
  // a signal for which no full position limit is left.
  lemma ClippedSignalIgnoresExposure(c: Config, risk: RiskState, x: Input)
    requires WithinPortfolio(c, risk)
    ensures !WithinPortfolio(c, Cycle(c, risk, x).risk) <==> ClipOvershoots(c, risk, x)
  {
    hide Cycle, Consensus;
    CycleEffect(c, risk, x);
  }

  predicate WithinPortfolio(c: Config, risk: RiskState) {
    risk.openExposure <= c.limits.maxPortfolioExposure
  }

  lemma CyclesStep(c: Config, risk: RiskState, xs: seq<Input>, n: nat)
    requires n < |xs|
    ensures Cycles(c, risk, xs[..n + 1]) == Cycle(c, Cycles(c, risk, xs[..n]), xs[n]).risk
  {
    assert xs[..n + 1][..n] == xs[..n];
  }

  lemma {:induction false} StaysWithin(c: Config, risk: RiskState, xs: seq<Input>, n: nat)
    requires WithinPortfolio(c, risk) && n <= |xs|
    requires forall i :: 0 <= i < n ==> !ClipOvershoots(c, Cycles(c, risk, xs[..i]), xs[i])
    ensures WithinPortfolio(c, Cycles(c, risk, xs[..n]))
  {
    hide Cycle, ClipOvershoots, WithinPortfolio;
    if n > 0 {
      StaysWithin(c, risk, xs, n - 1);
      CyclesStep(c, risk, xs, n - 1);
      ClippedSignalIgnoresExposure(c, Cycles(c, risk, xs[..n - 1]), xs[n - 1]);
    }
  }

  // So a single task stays within the limit throughout exactly when no pass does so.
  lemma LoneTaskStaysWithinIff(c: Config, risk: RiskState, xs: seq<Input>)
    requires WithinPortfolio(c, risk)
    ensures (forall n :: 0 <= n <= |xs| ==> WithinPortfolio(c, Cycles(c, risk, xs[..n]))) <==>
            (forall n :: 0 <= n < |xs| ==> !ClipOvershoots(c, Cycles(c, risk, xs[..n]), xs[n]))
  {
    hide Cycle, Cycles, ClipOvershoots, WithinPortfolio;
    if forall n :: 0 <= n <= |xs| ==> WithinPortfolio(c, Cycles(c, risk, xs[..n])) {
      forall n | 0 <= n < |xs| ensures !ClipOvershoots(c, Cycles(c, risk, xs[..n]), xs[n]) {
        CyclesStep(c, risk, xs, n);
        ClippedSignalIgnoresExposure(c, Cycles(c, risk, xs[..n]), xs[n]);
      }
    }
    if forall n :: 0 <= n < |xs| ==> !ClipOvershoots(c, Cycles(c, risk, xs[..n]), xs[n]) {
      forall n | 0 <= n <= |xs| ensures WithinPortfolio(c, Cycles(c, risk, xs[..n])) {
        StaysWithin(c, risk, xs, n);
      }
    }
  }

  // Steps only look at the risk state and the tasks.
  lemma NextIgnoresLedger(c: Config, s: System, step: Step)
    ensures var t, u := Next(c, s, step), Next(c, s.(acked := [], late := 0), step);
            t.risk == u.risk && t.tasks == u.tasks
  {
    hide Consensus, Approve, MakeIntent, Breach;
  }

  function AllSteps(xs: seq<Input>): seq<Step> {
    if xs == [] then [] else AllSteps(xs[..|xs| - 1]) + Steps(xs[|xs| - 1])
  }

  // Passes of a lone task are runs of the machine with one task.
  lemma {:induction false} CyclesAreRuns(c: Config, xs: seq<Input>)
    ensures var s := Reach(c, 1, AllSteps(xs));
            s.tasks == [Idle] && s.risk == Cycles(c, Start(1).risk, xs)
    decreases |xs|
  {
    hide Next;
    if xs == [] {
      assert Start(1).tasks == [Idle];
    } else {
      hide Reach;
      var p, x := xs[..|xs| - 1], xs[|xs| - 1];
      CyclesAreRuns(c, p);
      var s := Reach(c, 1, AllSteps(p));
      ReachSteps(c, AllSteps(p), x);
      CycleIgnoresLedger(c, s, x);
      CycleEffect(c, s.risk, x);
    }
  }

  lemma ReachSteps(c: Config, run: seq<Step>, x: Input)
    ensures Reach(c, 1, run + Steps(x)) == CycleFrom(c, Reach(c, 1, run), x)
  {
    hide Next, Reach;
    var st := Steps(x);
    Extend(c, 1, run, st[0]);
    Extend(c, 1, run + [st[0]], st[1]);
    Extend(c, 1, run + [st[0]] + [st[1]], st[2]);
    Extend(c, 1, run + [st[0]] + [st[1]] + [st[2]], st[3]);
    assert run + [st[0]] + [st[1]] + [st[2]] + [st[3]] == run + st;
  }

  lemma CycleIgnoresLedger(c: Config, s: System, x: Input)
    ensures var t, u := CycleFrom(c, s, x), CycleFrom(c, s.(acked := [], late := 0), x);
            t.risk == u.risk && t.tasks == u.tasks
  {
    hide Next;
    var st := Steps(x);
    var s1 := Next(c, s, st[0]);
    var s2 := Next(c, s1, st[1]);
    var s3 := Next(c, s2, st[2]);
    var u0 := s.(acked := [], late := 0);
    var u1 := Next(c, u0, st[0]);
    var u2 := Next(c, u1, st[1]);
    var u3 := Next(c, u2, st[2]);
    NextIgnoresLedger(c, s, st[0]);
    NextIgnoresLedger(c, s1, st[1]);
    NextIgnoresLedger(c, s2, st[2]);
    NextIgnoresLedger(c, s3, st[3]);
    NextIgnoresLedger(c, u1, st[1]);
    NextIgnoresLedger(c, u2, st[2]);
    NextIgnoresLedger(c, u3, st[3]);
  }

  // The limit can be left from a fresh start: with a position limit of 1 under a
  // portfolio limit of 1.5, two clipped signals reach an exposure of 2.
  lemma TwoClippedSignalsOvershoot(c: Config) returns (run: seq<Step>)
    requires c.limits.maxPositionNotional == 1.0 && c.limits.maxPortfolioExposure == 1.5
             && c.limits.maxTradesPerDay >= 2
    requires c.limits.consecutiveLossLock > 0 && c.limits.maxDailyLossPct > 0.0 && c.slippageThresholdBps >= 0.0
    ensures Reach(c, 1, run).risk.openExposure == 2.0 > c.limits.maxPortfolioExposure
  {
    var x := Input(PLAIN_SIGNAL.(notional := 2.0), 1.0, CALM_FLOW, true, 0.0, true);
    var xs := [x, x];
    run := AllSteps(xs);
    CyclesAreRuns(c, xs);
    assert Consensus(x.sig, 1.0, CALM_FLOW, true) == Ok(x.sig);
    var start := Start(1).risk;
    assert xs[..1] == [x] && [x][..0] == [];
    CycleStates(c, start, x);
    CycleEffect(c, start, x);
    hide Cycle;
    var one := Cycle(c, start, x).risk;
    assert Cycles(c, start, [x]) == one by { assert Cycles(c, start, [x][..0]) == start; }
    CycleEffect(c, one, x);
  }

  // A pass changes no lock but the trade counter, as long as nothing trips.
  lemma CycleStates(c: Config, risk: RiskState, x: Input)
    requires Acknowledges(c, risk, x)
    ensures var after := Cycle(c, risk, x).risk;
            after == Record(risk, Min(ScaledNotional(x), c.limits.maxPositionNotional))
  {
    hide Review, VerifyOrderflow;
    var agreed := Consensus(x.sig, x.regimeConfidence, x.flow, x.newsClear);
    ApprovalMeaning(c.limits, risk, agreed.value);
    var d := Approve(c.limits, risk, agreed.value).1;
    OrdersAreProtectedBuys(x.sig, x.regimeConfidence, x.flow, x.newsClear, d.notional);
    hide Consensus, Approve, MakeIntent;
  }
}
