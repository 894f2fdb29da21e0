// The event bus itself: counter, queue and subscriber lists changed in place.
// A handler is known by number; `react` says which events a handler publishes when it
// is given one, after everything that has been delivered before.
module EventBus {
  import opened Wrappers
  import opened BusOrder

  type Handler = nat

  type Log = seq<(Handler, Event)>

  type Reaction = (Log, Handler, Event) -> seq<Event>

  datatype BusError = QueueFull

  function Deliveries(hs: seq<Handler>, e: Event): (r: Log)
    ensures |r| == |hs| && forall i :: 0 <= i < |r| ==> r[i] == (hs[i], e)
  {
    if hs == [] then [] else Deliveries(hs[..|hs| - 1], e) + [(hs[|hs| - 1], e)]
  }

  function PublishOps(es: seq<Event>): seq<Op> {
    if es == [] then [] else PublishOps(es[..|es| - 1]) + [PublishOp(es[|es| - 1])]
  }

  datatype Subscriptions = Subscriptions(all: seq<Handler>, byKind: map<EventType, seq<Handler>>)

  function HandlersOf(s: Subscriptions, kind: EventType): seq<Handler> {
    s.all + if kind in s.byKind then s.byKind[kind] else []
  }

  // Everything the handlers of one event would publish, in handler order.
  function Reactions(react: Reaction, log: Log, hs: seq<Handler>, e: Event): seq<Event> {
    if hs == [] then []
    else
      var p := hs[..|hs| - 1];
      Reactions(react, log, p, e) + react(log + Deliveries(p, e), hs[|hs| - 1], e)
  }

  // How many of n events a bus takes before it is full.
  function Fit(b: BusState, n: nat): (k: nat)
    ensures k <= n
  {
    if b.capacity == 0 || |b.queue| + n <= b.capacity then n
    else if |b.queue| >= b.capacity then 0 else b.capacity - |b.queue|
  }

  // What is offered of the events: all, or up to the first that is refused.
  function Cut(b: BusState, es: seq<Event>): seq<Event> {
    var n := Fit(b, |es|);
    if n < |es| then es[..n + 1] else es
  }

  // How many handlers are called: all, or up to the one whose publishing is refused.
  function Reached(react: Reaction, log: Log, hs: seq<Handler>, e: Event, b: BusState): (k: nat)
    ensures k <= |hs|
  {
    if hs == [] then 0
    else
      var p := hs[..|hs| - 1];
      var n := |Reactions(react, log, p, e)|;
      if Fit(b, n) < n then Reached(react, log, p, e, b) else |hs|
  }

  // A drain: the bus, what has been delivered, and whether a handler has raised
  // because the queue was full, which ends the drain.
  datatype Drain = Drain(bus: BusState, log: Log, raised: bool)

  // One step: the least event is taken and what its handlers publish is queued.
  function HandOut(react: Reaction, s: Subscriptions, d: Drain): Drain {
    if Finished(d) then d
    else
      var e, b := d.bus.queue[MinIndex(d.bus.queue)], Take(d.bus);
      var hs := HandlersOf(s, e.kind);
      var es := Reactions(react, d.log, hs, e);
      Drain(ApplyAll(b, PublishOps(Cut(b, es))), d.log + Deliveries(hs[..Reached(react, d.log, hs, e, b)], e),
          Fit(b, |es|) < |es|)
  }

  predicate Finished(d: Drain) {
    d.raised || d.bus.queue == []
  }

  function Drained(react: Reaction, s: Subscriptions, d: Drain, n: nat): Drain {
    if n == 0 then d else HandOut(react, s, Drained(react, s, d, n - 1))
  }

  function AsReplay(s: seq<Event>): seq<Event> {
    if s == [] then [] else AsReplay(s[..|s| - 1]) + [s[|s| - 1].(replay := true)]
  }

  // The replayed form of sorted events on a counter that stands at n.
  function Numbered(s: seq<Event>, n: nat): seq<Event> {
    if s == [] then []
    else Numbered(s[..|s| - 1], n) + [s[|s| - 1].(replay := true, sequence := n + |s|)]
  }

  lemma {:induction false} NumberedAt(s: seq<Event>, n: nat)
    ensures |Numbered(s, n)| == |s|
    ensures forall i :: 0 <= i < |s| ==> Numbered(s, n)[i] == s[i].(replay := true, sequence := n + i + 1)
    decreases |s|
  {
    if s != [] { NumberedAt(s[..|s| - 1], n); }
  }

  lemma {:induction false} ApplyConcat(b: BusState, xs: seq<Op>, ys: seq<Op>)
    ensures ApplyAll(b, xs + ys) == ApplyAll(ApplyAll(b, xs), ys)
    decreases |ys|
  {
    if ys == [] {
      assert xs + ys == xs;
    } else {
      assert (xs + ys)[..|xs + ys| - 1] == xs + ys[..|ys| - 1];
      ApplyConcat(b, xs, ys[..|ys| - 1]);
    }
  }

  lemma {:induction false} PublishOpsConcat(xs: seq<Event>, ys: seq<Event>)
    ensures PublishOps(xs + ys) == PublishOps(xs) + PublishOps(ys)
    decreases |ys|
  {
    if ys == [] {
      assert xs + ys == xs;
    } else {
      assert (xs + ys)[..|xs + ys| - 1] == xs + ys[..|ys| - 1];
      PublishOpsConcat(xs, ys[..|ys| - 1]);
    }
  }

  // The entry a priority queue hands out: the first with the least sequence number.
  method LeastIndex(q: seq<Event>) returns (m: nat)
    requires q != []
    ensures m == MinIndex(q)
  {
    m := 0;
    for i := 1 to |q|
      invariant m < i && m == MinIndex(q[..i])
    {
      assert q[..i + 1][..i] == q[..i];
      if q[i].sequence < q[m].sequence {
        m := i;
      }
    }
    assert q[..|q|] == q;
  }

  class Bus {
    const capacity: nat
    const react: Reaction
    var sequence: nat
    var queue: seq<Event>
    var subscribers: map<EventType, seq<Handler>>
    var allSubscribers: seq<Handler>
    var delivered: Log
    ghost var published: seq<Event>
    ghost var dispatched: seq<Event>

    constructor (capacity: nat, react: Reaction)
      ensures this.capacity == capacity && this.react == react
      ensures View() == FreshBus(capacity) && Valid()
      ensures subscribers == map[] && allSubscribers == [] && delivered == []
    {
      this.capacity, this.react := capacity, react;
      sequence, queue, published, dispatched := 0, [], [], [];
      subscribers, allSubscribers, delivered := map[], [], [];
    }

    ghost function View(): BusState
      reads this
    {
      BusState(capacity, sequence, queue, published, dispatched)
    }

    ghost predicate Valid()
      reads this
    {
      Ordered(View())
    }

    function Subs(): Subscriptions
      reads this
    {
      Subscriptions(allSubscribers, subscribers)
    }

    method Subscribe(kind: EventType, h: Handler)
      modifies `subscribers
      ensures subscribers ==
              old(subscribers)[kind := (if kind in old(subscribers) then old(subscribers)[kind] else []) + [h]]
    {
      subscribers := subscribers[kind := (if kind in subscribers then subscribers[kind] else []) + [h]];
    }

    method SubscribeAll(h: Handler)
      modifies `allSubscribers
      ensures allSubscribers == old(allSubscribers) + [h]
    {
      allSubscribers := allSubscribers + [h];
    }

    method PublishEvent(e: Event) returns (r: Result<Event, BusError>)
      requires Valid()
      modifies `sequence, `queue, `published
      ensures Valid() && View() == Publish(old(View()), e)
      ensures r == if HasRoom(old(View())) then Ok(e.(sequence := old(sequence) + 1)) else Err(QueueFull)
    {
      sequence := sequence + 1;
      var ordered := e.(sequence := sequence);
      if capacity != 0 && |queue| >= capacity {
        return Err(QueueFull);
      }
      queue := queue + [ordered];
      published := published + [ordered];
      return Ok(ordered);
    }

    // Hands the event to the all-subscribers, then to the subscribers of its type;
    // whatever they publish is queued behind everything already published.  A handler
    // that finds the queue full raises, and the handlers after it are not called.
    method Dispatch(e: Event) returns (raised: bool)
      requires Valid()
      modifies `sequence, `queue, `published, `delivered
      ensures Valid()
      ensures var hs := HandlersOf(Subs(), e.kind);
              var es := Reactions(react, old(delivered), hs, e);
              && raised == (Fit(old(View()), |es|) < |es|)
              && View() == ApplyAll(old(View()), PublishOps(Cut(old(View()), es)))
              && delivered == old(delivered) + Deliveries(hs[..Reached(react, old(delivered), hs, e, old(View()))], e)
      ensures !raised ==>
                var own := if e.kind in subscribers then subscribers[e.kind] else [];
                delivered == old(delivered) + Deliveries(allSubscribers, e) + Deliveries(own, e)
    {
      hide Ordered, Publish, ApplyAll, Fit, Cut, Reached, Reactions, PublishOps, Deliveries;
      var hs := HandlersOf(Subs(), e.kind);
      NothingYet(react, delivered, e, View());
      for n := 0 to |hs|
        invariant Valid() && hs == HandlersOf(Subs(), e.kind)
        invariant delivered == old(delivered) + Deliveries(hs[..n], e)
        invariant AllFit(react, old(delivered), hs[..n], e, old(View()), View())
      {
        var log := delivered;
        ghost var before := View();
        delivered := delivered + [(hs[n], e)];
        DeliveriesGrow(hs, n, e);
        var ok := PublishEach(react(log, hs[n], e));
        NextHandler(react, old(delivered), hs, n, e, old(View()), before);
        if !ok {
          return true;
        }
      }
      assert hs[..|hs|] == hs;
      AllReached(react, old(delivered), hs, e, old(View()), View());
      DeliveriesConcat(allSubscribers, if e.kind in subscribers then subscribers[e.kind] else [], e);
      return false;
    }

    // Publishes one after the other, up to the first that is refused.
    method PublishEach(es: seq<Event>) returns (ok: bool)
      requires Valid()
      modifies `sequence, `queue, `published
      ensures Valid() && View() == ApplyAll(old(View()), PublishOps(Cut(old(View()), es)))
      ensures ok <==> Fit(old(View()), |es|) == |es|
    {
      hide Ordered, Publish, ApplyAll, PublishOps;
      NothingApplied(View());
      for n := 0 to |es|
        invariant Valid() && View() == ApplyAll(old(View()), PublishOps(es[..n]))
        invariant capacity == 0 || n == 0 || |old(queue)| + n <= capacity
        invariant |queue| == |old(queue)| + n
      {
        PublishNext(old(View()), es, n);
        PublishAdds(View(), es[n]);
        var r := PublishEvent(es[n]);
        if r.Err? {
          return false;
        }
      }
      assert es[..|es|] == es;
      return true;
    }

    // Takes the entry with the least sequence number.
    method PopLeast() returns (e: Event)
      requires Valid() && queue != []
      modifies `queue, `dispatched
      ensures Valid() && View() == Take(old(View())) && e == old(queue)[0] && queue == old(queue)[1..]
      ensures dispatched == old(dispatched) + [e]
    {
      hide MinIndex, Ordered;
      TakeKeepsOrdered(View());
      var m := LeastIndex(queue);
      e := queue[m];
      queue := queue[..m] + queue[m + 1..];
      dispatched := dispatched + [e];
      assert dispatched == old(dispatched) + [old(queue)[0]];
      assert dispatched[|dispatched| - 1] == e;
    }

    // One event out and through its handlers; None when nothing waits.
    method DrainOnce() returns (r: Option<Event>, raised: bool)
      requires Valid()
      modifies `sequence, `queue, `published, `dispatched, `delivered
      ensures Valid() && Drain(View(), delivered, raised) ==
              HandOut(react, Subs(), Drain(old(View()), old(delivered), false))
      ensures r == if old(queue) == [] then None else Some(old(queue)[0])
      ensures r.Some? ==> dispatched == old(dispatched) + [r.value]
    {
      hide Ordered, Take, MinIndex, PublishOps, Reactions, ApplyAll, Fit, Cut, Reached, Deliveries;
      if queue == [] {
        return None, false;
      }
      TakeKeepsOrdered(View());
      var e := PopLeast();
      raised := Dispatch(e);
      r := Some(e);
    }

    // The first half of a replay: the sorted events, marked and numbered, up to the
    // first that does not fit.
    method PublishSorted(sorted: seq<Event>) returns (r: Result<seq<Event>, BusError>)
      requires Valid()
      modifies `sequence, `queue, `published
      ensures Valid()
      ensures r == Err(QueueFull) || r.Ok?
      ensures r.Ok? <==> Fit(old(View()), |sorted|) == |sorted|
      ensures r.Ok? ==> r.value == Numbered(sorted, old(sequence)) && queue == old(queue) + r.value
      ensures View() == ApplyAll(old(View()), PublishOps(AsReplay(Cut(old(View()), sorted))))
    {
      hide Ordered, ApplyAll, Publish, PublishOps, AsReplay, Numbered;
      var ordered: seq<Event> := [];
      NothingToReplay(View());
      for n := 0 to |sorted|
        invariant Valid() && sequence == old(sequence) + n
        invariant |ordered| == n && ordered == Numbered(sorted[..n], old(sequence)) && queue == old(queue) + ordered
        invariant capacity == 0 || n == 0 || |old(queue)| + n <= capacity
        invariant View() == ApplyAll(old(View()), PublishOps(AsReplay(sorted[..n])))
      {
        ReplayStep(old(View()), sorted, n);
        NumberedGrows(sorted[..n + 1], old(sequence));
        assert sorted[..n + 1][..n] == sorted[..n];
        PublishAdds(View(), sorted[n].(replay := true));
        var p := PublishEvent(sorted[n].(replay := true));
        if p.Err? {
          return Err(QueueFull);
        }
        ordered := ordered + [p.value];
      }
      assert sorted[..|sorted|] == sorted;
      return Ok(ordered);
    }

    // The second half: hand out until nothing waits.  Handlers that keep publishing may
    // never let that happen; `enough` is a number of steps after which it has.
    method DrainAll(ghost enough: nat) returns (raised: bool)
      requires Valid() && Finished(Drained(react, Subs(), Drain(View(), delivered, false), enough))
      modifies `sequence, `queue, `published, `dispatched, `delivered
      ensures Valid() && Drain(View(), delivered, raised) ==
              Drained(react, Subs(), old(Drain(View(), delivered, false)), enough)
      ensures raised || queue == []
    {
      hide Ordered, HandOut;
      raised := false;
      ghost var steps := 0;
      ghost var start := Drain(View(), delivered, false);
      while !raised && queue != []
        invariant Valid() && Drain(View(), delivered, raised) == Drained(react, Subs(), start, steps)
        invariant steps <= enough
        decreases enough - steps
      {
        var _, r := DrainOnce();
        raised := r;
        steps := steps + 1;
      }
      FinishedStays(react, Subs(), start, steps, enough);
    }

    // Publishes the events in replay-key order and drains the bus, if the drain ends.
    method Replay(events: seq<Event>, ghost enough: nat) returns (r: Result<seq<Event>, BusError>)
      requires Valid()
      requires Fit(View(), |events|) == |events| ==>
               Finished(Drained(react, Subs(), AfterPublishing(View(), delivered, events), enough))
      modifies `sequence, `queue, `published, `dispatched, `delivered
      ensures Valid()
      ensures Fit(old(View()), |events|) < |events| ==> r == Err(QueueFull)
      ensures Fit(old(View()), |events|) == |events| ==>
                var d := Drained(react, Subs(), old(AfterPublishing(View(), delivered, events)), enough);
                && View() == d.bus && delivered == d.log
                && r == (if d.raised then Err(QueueFull) else Ok(Numbered(Ordering(events), old(sequence))))
                && (r.Ok? ==> queue == [])
    {
      hide Ordered, Ordering, Numbered, Drained, ApplyAll, Fit, Cut;
      OrderingSorts(events);
      WholeCut(View(), Ordering(events));
      r := PublishSorted(Ordering(events));
      if r.Ok? {
        var raised := DrainAll(enough);
        if raised {
          r := Err(QueueFull);
        }
      }
    }
  }

  // The bus of a replay between its two halves.
  function AfterPublishing(b: BusState, log: Log, events: seq<Event>): Drain {
    Drain(ApplyAll(b, PublishOps(AsReplay(Ordering(events)))), log, false)
  }

  lemma WholeCut(b: BusState, es: seq<Event>)
    ensures Fit(b, |es|) == |es| ==> Cut(b, es) == es
  {}

  lemma {:induction false} FinishedStays(react: Reaction, s: Subscriptions, d: Drain, m: nat, n: nat)
    requires m <= n && Finished(Drained(react, s, d, m))
    ensures Drained(react, s, d, n) == Drained(react, s, d, m)
  {
    if m < n { FinishedStays(react, s, d, m, n - 1); }
  }

  // ------------------------------------------------------- handlers, one by one

  // The first handlers have published all they wanted.
  ghost predicate AllFit(react: Reaction, log: Log, hs: seq<Handler>, e: Event, b: BusState, c: BusState) {
    var es := Reactions(react, log, hs, e);
    Fit(b, |es|) == |es| && c == ApplyAll(b, PublishOps(es))
  }

  lemma NothingApplied(b: BusState)
    ensures ApplyAll(b, PublishOps([])) == b
  {}

  lemma NothingYet(react: Reaction, log: Log, e: Event, b: BusState)
    ensures AllFit(react, log, [], e, b, b) && Deliveries([], e) == []
  {
    NothingApplied(b);
  }

  lemma DeliveriesConcat(xs: seq<Handler>, ys: seq<Handler>, e: Event)
    ensures Deliveries(xs + ys, e) == Deliveries(xs, e) + Deliveries(ys, e)
  {}

  lemma DeliveriesGrow(hs: seq<Handler>, n: nat, e: Event)
    requires n < |hs|
    ensures Deliveries(hs[..n + 1], e) == Deliveries(hs[..n], e) + [(hs[n], e)]
  {
    assert hs[..n + 1][..n] == hs[..n];
  }

  lemma PublishNext(b: BusState, es: seq<Event>, n: nat)
    requires n < |es|
    ensures ApplyAll(b, PublishOps(es[..n + 1])) == Publish(ApplyAll(b, PublishOps(es[..n])), es[n])
  {
    assert es[..n + 1][..n] == es[..n];
    var ops := PublishOps(es[..n]);
    assert (ops + [PublishOp(es[n])])[..|ops|] == ops;
  }

  // Publishing what fits makes the queue that much longer.
  lemma {:induction false} FittingGrows(b: BusState, es: seq<Event>)
    requires Fit(b, |es|) == |es|
    ensures var c := ApplyAll(b, PublishOps(es));
            c.capacity == b.capacity && |c.queue| == |b.queue| + |es|
    decreases |es|
  {
    hide ApplyAll, PublishOps, Publish;
    if es == [] {
      NothingApplied(b);
    } else {
      var n := |es| - 1;
      FittingGrows(b, es[..n]);
      PublishNext(b, es, n);
      assert es[..n + 1] == es;
      PublishAdds(ApplyAll(b, PublishOps(es[..n])), es[n]);
    }
  }

  // After x, which fits, more of r fits exactly when it does after both are put together.
  lemma CutAfter(b: BusState, x: seq<Event>, r: seq<Event>)
    requires Fit(b, |x|) == |x|
    ensures var c := ApplyAll(b, PublishOps(x));
            && (Fit(c, |r|) == |r| <==> Fit(b, |x + r|) == |x + r|)
            && ApplyAll(c, PublishOps(Cut(c, r))) == ApplyAll(b, PublishOps(Cut(b, x + r)))
  {
    hide ApplyAll, PublishOps;
    var c := ApplyAll(b, PublishOps(x));
    FittingGrows(b, x);
    assert Cut(b, x + r) == x + Cut(c, r);
    PublishOpsConcat(x, Cut(c, r));
    ApplyConcat(b, PublishOps(x), PublishOps(Cut(c, r)));
  }

  // One handler more: either all still fits, or it is the last one reached, and what
  // the later ones would publish does not matter.
  lemma NextHandler(react: Reaction, log: Log, hs: seq<Handler>, n: nat, e: Event, b: BusState, c: BusState)
    requires n < |hs| && AllFit(react, log, hs[..n], e, b, c)
    ensures var r, es := react(log + Deliveries(hs[..n], e), hs[n], e), Reactions(react, log, hs, e);
            var d := ApplyAll(c, PublishOps(Cut(c, r)));
            if Fit(c, |r|) == |r| then AllFit(react, log, hs[..n + 1], e, b, d)
            else
              && Fit(b, |es|) < |es| && d == ApplyAll(b, PublishOps(Cut(b, es)))
              && Reached(react, log, hs, e, b) == n + 1
  {
    hide ApplyAll, PublishOps, Fit, Cut;
    var x, r := Reactions(react, log, hs[..n], e), react(log + Deliveries(hs[..n], e), hs[n], e);
    assert hs[..n + 1][..n] == hs[..n];
    assert Reactions(react, log, hs[..n + 1], e) == x + r;
    CutAfter(b, x, r);
    if Fit(c, |r|) == |r| {
      WholeCut(b, x + r);
    } else {
      StaysCut(react, log, hs, n + 1, e, b);
    }
  }

  lemma CutOfLonger(b: BusState, x: seq<Event>, y: seq<Event>)
    requires Fit(b, |x|) < |x|
    ensures Fit(b, |x + y|) < |x + y| && Cut(b, x + y) == Cut(b, x)
  {}

  // Once something has been refused, later handlers are not reached.
  lemma {:induction false} StaysCut(react: Reaction, log: Log, hs: seq<Handler>, m: nat, e: Event, b: BusState)
    requires 0 < m <= |hs|
    requires var x := Reactions(react, log, hs[..m], e); Fit(b, |x|) < |x|
    requires var p := Reactions(react, log, hs[..m - 1], e); Fit(b, |p|) == |p|
    ensures var x, es := Reactions(react, log, hs[..m], e), Reactions(react, log, hs, e);
            Fit(b, |es|) < |es| && Cut(b, es) == Cut(b, x) && Reached(react, log, hs, e, b) == m
    decreases |hs|
  {
    hide Fit, Cut;
    if m == |hs| {
      assert hs[..m] == hs;
    } else {
      var p := hs[..|hs| - 1];
      assert p[..m] == hs[..m] && p[..m - 1] == hs[..m - 1];
      StaysCut(react, log, p, m, e, b);
      CutOfLonger(b, Reactions(react, log, p, e), react(log + Deliveries(p, e), hs[|hs| - 1], e));
    }
  }

  // Without a refusal all handlers are reached.
  lemma AllReached(react: Reaction, log: Log, hs: seq<Handler>, e: Event, b: BusState, c: BusState)
    requires AllFit(react, log, hs, e, b, c)
    ensures Reached(react, log, hs, e, b) == |hs| && hs[..|hs|] == hs
    ensures Cut(b, Reactions(react, log, hs, e)) == Reactions(react, log, hs, e)
  {
    if hs != [] {
      var p := hs[..|hs| - 1];
      if Fit(b, |Reactions(react, log, p, e)|) < |Reactions(react, log, p, e)| {
        CutOfLonger(b, Reactions(react, log, p, e), react(log + Deliveries(p, e), hs[|hs| - 1], e));
      }
    }
  }

  lemma ReplayStep(b: BusState, sorted: seq<Event>, n: nat)
    requires n < |sorted|
    ensures ApplyAll(b, PublishOps(AsReplay(sorted[..n + 1])))
            == Publish(ApplyAll(b, PublishOps(AsReplay(sorted[..n]))), sorted[n].(replay := true))
  {
    hide Publish;
    assert sorted[..n + 1][..n] == sorted[..n];
    var p, x := AsReplay(sorted[..n]), sorted[n].(replay := true);
    assert (p + [x])[..|p|] == p;
    var ops := PublishOps(p);
    assert (ops + [PublishOp(x)])[..|ops|] == ops;
  }

  // What publishing sorted events leaves on a bus they fit.
  lemma {:induction false} PublishedReplay(b: BusState, s: seq<Event>)
    requires Ordered(b) && Fit(b, |s|) == |s|
    ensures var c := ApplyAll(b, PublishOps(AsReplay(s)));
            && Ordered(c) && c.capacity == b.capacity && c.sequence == b.sequence + |s|
            && c.dispatched == b.dispatched && c.queue == b.queue + Numbered(s, b.sequence)
    decreases |s|
  {
    hide Ordered, Publish, ApplyAll, PublishOps, AsReplay, Numbered, HasRoom;
    if s == [] {
      NothingToReplay(b);
    } else {
      var n := |s| - 1;
      var c, x := ApplyAll(b, PublishOps(AsReplay(s[..n]))), s[n].(replay := true);
      PublishedReplay(b, s[..n]);
      ReplayStep(b, s, n);
      assert s[..n + 1] == s;
      PublishKeepsOrdered(c, x);
      NumberedAt(s[..n], b.sequence);
      NumberedGrows(s, b.sequence);
      PublishOneMore(b, c, Numbered(s[..n], b.sequence), x);
    }
  }

  lemma NothingToReplay(b: BusState)
    ensures ApplyAll(b, PublishOps(AsReplay([]))) == b && Numbered([], b.sequence) == []
  {}

  lemma NumberedGrows(s: seq<Event>, k: nat)
    requires s != []
    ensures Numbered(s, k) == Numbered(s[..|s| - 1], k) + [s[|s| - 1].(replay := true, sequence := k + |s|)]
  {}

  // One more event on a bus that has taken q since it was b.
  lemma PublishOneMore(b: BusState, c: BusState, q: seq<Event>, x: Event)
    requires c.capacity == b.capacity && c.sequence == b.sequence + |q| && c.queue == b.queue + q
    requires Fit(b, |q| + 1) == |q| + 1
    ensures var d := Publish(c, x);
            && d.capacity == b.capacity && d.sequence == b.sequence + |q| + 1 && d.dispatched == c.dispatched
            && d.queue == b.queue + (q + [x.(sequence := b.sequence + |q| + 1)])
  {
    PublishAdds(c, x);
  }

  // How much a drain has handed out, unless a handler has raised.
  lemma {:induction false} DrainCounts(react: Reaction, s: Subscriptions, d: Drain, n: nat)
    requires Ordered(d.bus) && !d.raised
    ensures var b, t := d.bus, Drained(react, s, d, n);
            && Ordered(t.bus) && b.published <= t.bus.published
            && (!t.raised ==> |t.bus.dispatched| >= |b.dispatched| + (if n <= |b.queue| then n else |b.queue|))
            && |t.bus.dispatched| <= |b.dispatched| + n
  {
    hide HandOut, Increasing;
    if n > 0 {
      DrainCounts(react, s, d, n - 1);
      HandOutStep(react, s, Drained(react, s, d, n - 1));
      Waiting(d.bus, Drained(react, s, d, n - 1).bus);
    }
  }

  // While not everything that waited has been handed out, something waits.
  lemma Waiting(b: BusState, t: BusState)
    requires Ordered(b) && Ordered(t) && b.published <= t.published
    ensures |t.dispatched| < |b.dispatched| + |b.queue| ==> t.queue != []
  {}

  lemma SamePrefix(b: BusState, t: BusState, k: nat)
    requires Ordered(b) && Ordered(t) && b.published <= t.published
    requires k <= |b.queue| && |b.dispatched| + k <= |t.dispatched|
    ensures b.dispatched + b.queue[..k] == t.dispatched[..|b.dispatched| + k]
  {
    hide Increasing;
    var m := |b.dispatched| + k;
    assert t.dispatched[..m] == t.published[..m] == b.published[..m];
  }

  // Handlers only add behind what already waits: unless a handler raises, the first n
  // drain steps hand out the first n waiting events, whatever is published meanwhile.
  lemma DrainHandsOutTheQueue(react: Reaction, s: Subscriptions, d: Drain, n: nat)
    requires Ordered(d.bus) && !d.raised
    ensures Ordered(Drained(react, s, d, n).bus)
    ensures var b, t := d.bus, Drained(react, s, d, n);
            && b.published <= t.bus.published
            && (!t.raised && n <= |b.queue| ==> t.bus.dispatched == b.dispatched + b.queue[..n])
            && (!t.raised && n >= |b.queue| ==> b.dispatched + b.queue <= t.bus.dispatched)
  {
    hide HandOut, Increasing, Ordered, Drained;
    var b, t := d.bus, Drained(react, s, d, n);
    DrainCounts(react, s, d, n);
    if !t.raised {
      SamePrefix(b, t.bus, if n <= |b.queue| then n else |b.queue|);
      assert b.queue[..|b.queue|] == b.queue;
    }
  }

  lemma HandOutStep(react: Reaction, s: Subscriptions, d: Drain)
    requires Ordered(d.bus)
    ensures var t := HandOut(react, s, d);
            && Ordered(t.bus) && d.bus.published <= t.bus.published && (d.raised ==> t.raised)
            && t.bus.dispatched == if Finished(d) then d.bus.dispatched else d.bus.dispatched + [d.bus.queue[0]]
  {
    hide PublishOps, Reactions, MinIndex, Take, Increasing, Cut, Fit, Reached, Deliveries;
    if !Finished(d) {
      TakeKeepsOrdered(d.bus);
      var e, b := d.bus.queue[MinIndex(d.bus.queue)], Take(d.bus);
      var es := Cut(b, Reactions(react, d.log, HandlersOf(s, e.kind), e));
      EveryRunIsOrdered(b, PublishOps(es));
      OnlyPublishes(b, es);
    }
  }

  lemma {:induction false} OnlyPublishes(b: BusState, es: seq<Event>)
    ensures ApplyAll(b, PublishOps(es)).dispatched == b.dispatched && ApplyAll(b, PublishOps(es)).capacity == b.capacity
    decreases |es|
  {
    if es != [] {
      OnlyPublishes(b, es[..|es| - 1]);
      var ops := PublishOps(es[..|es| - 1]);
      assert PublishOps(es)[..|ops|] == ops;
    }
  }

  // On an unbounded queue no handler ever raises.
  lemma {:induction false} UnboundedNeverRaises(react: Reaction, s: Subscriptions, d: Drain, n: nat)
    requires d.bus.capacity == 0 && !d.raised
    ensures !Drained(react, s, d, n).raised && Drained(react, s, d, n).bus.capacity == 0
  {
    hide Reactions, Reached, Deliveries, PublishOps, ApplyAll;
    if n > 0 {
      UnboundedNeverRaises(react, s, d, n - 1);
      var p := Drained(react, s, d, n - 1);
      if !Finished(p) {
        var e, b := p.bus.queue[MinIndex(p.bus.queue)], Take(p.bus);
        OnlyPublishes(b, Cut(b, Reactions(react, p.log, HandlersOf(s, e.kind), e)));
      }
    }
  }

  // A replay, handlers included: unless one raises, the events that waited and then the
  // replayed ones in key order, consecutively numbered, before anything a handler
  // publishes.
  lemma ReplayDeliversInOrder(react: Reaction, s: Subscriptions, b: BusState, log: Log, events: seq<Event>, n: nat)
    requires Ordered(b) && Fit(b, |events|) == |events| && n >= |b.queue| + |events|
    ensures var d := Drained(react, s, AfterPublishing(b, log, events), n);
            !d.raised ==> b.dispatched + b.queue + Numbered(Ordering(events), b.sequence) <= d.bus.dispatched
  {
    hide Ordered, Drained, Ordering, ApplyAll, Numbered;
    OrderingSorts(events);
    NumberedAt(Ordering(events), b.sequence);
    PublishedReplay(b, Ordering(events));
    var c := AfterPublishing(b, log, events);
    DrainHandsOutTheQueue(react, s, c, n);
    assert c.bus.dispatched + c.bus.queue == b.dispatched + b.queue + Numbered(Ordering(events), b.sequence);
  }

  // With handlers that publish nothing the drain ends after one step per waiting event,
  // and never raises.
  lemma {:induction false} SilentDrainEnds(react: Reaction, s: Subscriptions, d: Drain, n: nat)
    requires Ordered(d.bus) && !d.raised && forall log, h, e :: react(log, h, e) == []
    requires n <= |d.bus.queue|
    ensures var t, b := Drained(react, s, d, n), d.bus;
            && Ordered(t.bus) && !t.raised && t.bus.queue == b.queue[n..]
                 && t.bus.dispatched == b.dispatched + b.queue[..n]
            && t.bus.sequence == b.sequence
  {
    hide HandOut, Ordered;
    if n > 0 {
      SilentDrainEnds(react, s, d, n - 1);
      SilentStep(react, s, Drained(react, s, d, n - 1));
    }
  }

  lemma SilentStep(react: Reaction, s: Subscriptions, d: Drain)
    requires Ordered(d.bus) && !d.raised && d.bus.queue != [] && forall log, h, e :: react(log, h, e) == []
    ensures var t, b := HandOut(react, s, d), d.bus;
            && Ordered(t.bus) && !t.raised && t.bus.queue == b.queue[1..]
                 && t.bus.dispatched == b.dispatched + [b.queue[0]]
            && t.bus.sequence == b.sequence
  {
    hide Reactions, MinIndex, Take, Ordered, HandlersOf, Reached, Deliveries;
    TakeKeepsOrdered(d.bus);
    var e := d.bus.queue[MinIndex(d.bus.queue)];
    Silence(react, d.log, HandlersOf(s, e.kind), e);
    assert PublishOps([]) == [];
  }

  lemma {:induction false} Silence(react: Reaction, log: Log, hs: seq<Handler>, e: Event)
    requires forall l, h :: react(l, h, e) == []
    ensures Reactions(react, log, hs, e) == []
    decreases |hs|
  {
    if hs != [] { Silence(react, log, hs[..|hs| - 1], e); }
  }

  // Replaying any permutation of events with identifying keys leads through the same
  // states, reacting and raising handlers included, and unless one raises delivers the
  // events numbered from one on a fresh bus of sufficient capacity.
  lemma ReplayIgnoresArrivalOrder(react: Reaction, s: Subscriptions, capacity: nat, a: seq<Event>, b: seq<Event>,
      n: nat)
    requires multiset(a) == multiset(b) && KeysIdentify(a)
    requires capacity == 0 || |a| <= capacity
    ensures var x := Drained(react, s, AfterPublishing(FreshBus(capacity), [], a), n);
            && x == Drained(react, s, AfterPublishing(FreshBus(capacity), [], b), n)
            && (n >= |a| && !x.raised ==>
                  |x.bus.dispatched| >= |a|
                  && forall i :: 0 <= i < |a| ==> x.bus.dispatched[i].sequence == i + 1 && x.bus.dispatched[i].replay)
  {
    hide Drained, ApplyAll, PublishOps, AsReplay, Ordering, KeysIdentify;
    SortIgnoresArrivalOrder(a, b);
    var x := Drained(react, s, AfterPublishing(FreshBus(capacity), [], a), n);
    if n >= |a| && !x.raised {
      FreshIsOrdered(capacity);
      OrderingSorts(a);
      ReplayDeliversInOrder(react, s, FreshBus(capacity), [], a, n);
      var first := Numbered(Ordering(a), 0);
      NumberedAt(Ordering(a), 0);
      assert first <= x.bus.dispatched;
      forall i | 0 <= i < |a| ensures x.bus.dispatched[i].sequence == i + 1 && x.bus.dispatched[i].replay {
        assert x.bus.dispatched[i] == first[i];
      }
    }
  }
}
