// Events, the replay ordering on them, and the order in which a priority queue
// keyed by sequence number hands them out.
module BusOrder {
  import opened TextOrder
  import opened Sorting

  datatype EventType =
    | MarketTick | OrderbookUpdate | TradeUpdate | BarClosed | FeatureUpdate | RegimeUpdate | OrderflowUpdate
    | SignalGenerated | DaVerdict | OrderCreated | OrderFilled | PositionUpdated | RiskAlert | KillSwitch

  datatype Event = Event(id: string, kind: EventType, sequence: int, timestamp: int, payload: string, replay: bool)

  // ------------------------------------------------------------ the replay key

  // The sort key (timestamp, sequence, event_id), compared lexicographically.
  predicate KeyLeq(e: Event, f: Event) {
    || e.timestamp < f.timestamp
    || (e.timestamp == f.timestamp
        && (e.sequence < f.sequence || (e.sequence == f.sequence && TextLeq(e.id, f.id))))
  }

  predicate SameKey(e: Event, f: Event) {
    e.timestamp == f.timestamp && e.sequence == f.sequence && e.id == f.id
  }

  lemma KeyTotal(e: Event, f: Event)
    ensures KeyLeq(e, f) || KeyLeq(f, e)
    ensures KeyLeq(e, f) && KeyLeq(f, e) ==> SameKey(e, f)
  {
    TextTotal(e.id, f.id);
  }

  lemma KeyTransitive(e: Event, f: Event, g: Event)
    requires KeyLeq(e, f) && KeyLeq(f, g)
    ensures KeyLeq(e, g)
  {
    if TextLeq(e.id, f.id) && TextLeq(f.id, g.id) { TextTransitive(e.id, f.id, g.id); }
  }

  lemma KeyIsOrder()
    ensures IsOrder(KeyLeq)
  {
    forall e, f ensures KeyLeq(e, f) || KeyLeq(f, e) { KeyTotal(e, f); }
    forall e, f, g | KeyLeq(e, f) && KeyLeq(f, g) ensures KeyLeq(e, g) { KeyTransitive(e, f, g); }
  }

  // -------------------------------------------------------------------- sorting

  // The stable sort of the replay.
  function Ordering(s: seq<Event>): seq<Event> {
    Sort(s, KeyLeq)
  }

  lemma OrderingSorts(s: seq<Event>)
    ensures Sorted(Ordering(s), KeyLeq) && multiset(Ordering(s)) == multiset(s) && |Ordering(s)| == |s|
  {
    KeyIsOrder();
    SortSorts(s, KeyLeq);
  }

  // Events that agree on the whole key are the same event.
  predicate KeysIdentify(s: seq<Event>) {
    forall e, f :: e in s && f in s && SameKey(e, f) ==> e == f
  }

  lemma {:induction false} SortedIsUnique(a: seq<Event>, b: seq<Event>)
    requires Sorted(a, KeyLeq) && Sorted(b, KeyLeq) && multiset(a) == multiset(b) && KeysIdentify(a)
    ensures a == b
  {
    hide KeyLeq;
    if a == [] {
      assert |multiset(b)| == |b|;
    } else {
      assert a[0] in multiset(b) && |b| > 0 by { assert a[0] in multiset(a); }
      assert b[0] in multiset(a) by { assert b[0] in multiset(b); }
      KeyTotal(a[0], b[0]);
      assert a == [a[0]] + a[1..] && b == [b[0]] + b[1..];
      assert a[0] == b[0];
      assert multiset(a[1..]) == multiset(a) - multiset{a[0]};
      assert multiset(b[1..]) == multiset(b) - multiset{b[0]};
      SortedIsUnique(a[1..], b[1..]);
    }
  }

  // Any permutation of events with identifying keys is ordered into the same sequence.
  lemma SortIgnoresArrivalOrder(a: seq<Event>, b: seq<Event>)
    requires multiset(a) == multiset(b) && KeysIdentify(a)
    ensures Ordering(a) == Ordering(b)
  {
    hide Ordering;
    OrderingSorts(a);
    OrderingSorts(b);
    forall e, f | e in Ordering(a) && f in Ordering(a) && SameKey(e, f) ensures e == f {
      assert e in multiset(Ordering(a)) && f in multiset(Ordering(a));
      assert e in multiset(a) && f in multiset(a);
    }
    SortedIsUnique(Ordering(a), Ordering(b));
  }

  // The events with the key of e, in order.
  function Like(s: seq<Event>, e: Event): seq<Event> {
    if s == [] then [] else (if SameKey(s[0], e) then [s[0]] else []) + Like(s[1..], e)
  }

  lemma {:induction false} InsertFirst(x: Event, s: seq<Event>, e: Event)
    ensures Like(Insert(x, s, KeyLeq), e) == (if SameKey(x, e) then [x] else []) + Like(s, e)
  {
    if s != [] && !KeyLeq(x, s[0]) {
      InsertFirst(x, s[1..], e);
      TextTotal(x.id, x.id);
      assert ([s[0]] + Insert(x, s[1..], KeyLeq))[1..] == Insert(x, s[1..], KeyLeq);
    } else {
      assert ([x] + s)[1..] == s;
    }
  }

  // Events with the same key keep their arrival order, all of them.
  lemma {:induction false} ArrivalOrderKept(s: seq<Event>, e: Event)
    ensures Like(Ordering(s), e) == Like(s, e)
  {
    if s != [] {
      ArrivalOrderKept(s[1..], e);
      InsertFirst(s[0], Ordering(s[1..]), e);
    }
  }

  // The events with the i-th one moved to the front.
  function Promoted(a: seq<Event>, i: nat): (b: seq<Event>)
    requires i < |a|
    ensures multiset(b) == multiset(a) && b != [] && b[0] == a[i]
  {
    assert a == a[..i] + [a[i]] + a[i + 1..];
    [a[i]] + a[..i] + a[i + 1..]
  }

  // Replay ignores the order of arrival exactly when the keys identify the events.
  lemma ArrivalOrderIgnoredIff(a: seq<Event>)
    ensures (forall b :: multiset(b) == multiset(a) ==> Ordering(b) == Ordering(a)) <==> KeysIdentify(a)
  {
    hide Ordering;
    if KeysIdentify(a) {
      forall b | multiset(b) == multiset(a) ensures Ordering(b) == Ordering(a) {
        SortIgnoresArrivalOrder(a, b);
      }
    }
    if forall b :: multiset(b) == multiset(a) ==> Ordering(b) == Ordering(a) {
      forall e, f | e in a && f in a && SameKey(e, f) ensures e == f {
        var i :| 0 <= i < |a| && a[i] == e;
        var j :| 0 <= j < |a| && a[j] == f;
        ArrivalOrderKept(Promoted(a, i), e);
        ArrivalOrderKept(Promoted(a, j), e);
        assert Like(Promoted(a, i), e)[0] == e && Like(Promoted(a, j), e)[0] == f;
      }
    }
  }

  // ---------------------------------------------------------- the bus as a value

  // capacity 0 means unbounded.  `published` and `dispatched` are the histories of
  // accepted and of handed-out events.
  datatype BusState = BusState(capacity: nat, sequence: nat, queue: seq<Event>, published: seq<Event>,
      dispatched: seq<Event>)

  function FreshBus(capacity: nat): BusState {
    BusState(capacity, 0, [], [], [])
  }

  predicate HasRoom(b: BusState) {
    b.capacity == 0 || |b.queue| < b.capacity
  }

  // A full queue refuses the event, but its sequence number is spent.
  function Publish(b: BusState, e: Event): BusState {
    var ordered := e.(sequence := b.sequence + 1);
    if HasRoom(b)
    then b.(sequence := b.sequence + 1, queue := b.queue + [ordered], published := b.published + [ordered])
    else b.(sequence := b.sequence + 1)
  }

  // Index of the entry a priority queue keyed by sequence number hands out.
  function MinIndex(q: seq<Event>): (m: nat)
    requires q != []
    ensures m < |q|
    ensures forall i :: 0 <= i < |q| ==> q[m].sequence <= q[i].sequence
  {
    if |q| == 1 then 0
    else
      var m := MinIndex(q[..|q| - 1]);
      if q[|q| - 1].sequence < q[m].sequence then |q| - 1 else m
  }

  function Take(b: BusState): BusState {
    if b.queue == [] then b
    else
      var m := MinIndex(b.queue);
      b.(queue := b.queue[..m] + b.queue[m + 1..], dispatched := b.dispatched + [b.queue[m]])
  }

  datatype Op = PublishOp(e: Event) | TakeOp

  function Apply(b: BusState, op: Op): BusState {
    match op
    case PublishOp(e) => Publish(b, e)
    case TakeOp => Take(b)
  }

  function ApplyAll(b: BusState, ops: seq<Op>): BusState {
    if ops == [] then b else Apply(ApplyAll(b, ops[..|ops| - 1]), ops[|ops| - 1])
  }

  predicate Increasing(s: seq<Event>) {
    forall i, j :: 0 <= i < j < |s| ==> s[i].sequence < s[j].sequence
  }

  // What has been accepted is what has been handed out followed by what waits,
  // in one strictly increasing numbering that the counter has not passed.
  ghost predicate Ordered(b: BusState) {
    && b.published == b.dispatched + b.queue
    && Increasing(b.published)
    && forall e :: e in b.published ==> e.sequence <= b.sequence
  }

  lemma PublishAdds(b: BusState, e: Event)
    ensures var c := Publish(b, e);
            && c.capacity == b.capacity && c.sequence == b.sequence + 1 && c.dispatched == b.dispatched
            && c.queue == b.queue + if HasRoom(b) then [e.(sequence := b.sequence + 1)] else []
  {}

  lemma PublishKeepsOrdered(b: BusState, e: Event)
    requires Ordered(b)
    ensures Ordered(Publish(b, e))
  {}

  lemma TakeKeepsOrdered(b: BusState)
    requires Ordered(b)
    ensures Ordered(Take(b)) && Take(b).sequence == b.sequence
    ensures b.queue != [] ==>
              MinIndex(b.queue) == 0 && Take(b).queue == b.queue[1..]
                  && Take(b).dispatched == b.dispatched + [b.queue[0]]
  {
    if b.queue != [] {
      var m := MinIndex(b.queue);
      assert b.published[|b.dispatched|] == b.queue[0] && b.published[|b.dispatched| + m] == b.queue[m];
      assert m == 0;
    }
  }

  // Whatever publishes and drains are interleaved, including publishes by
  // handlers while the queue drains: every accepted event is handed out exactly
  // once, in increasing sequence order, or is still waiting.
  lemma {:induction false} EveryRunIsOrdered(b: BusState, ops: seq<Op>)
    requires Ordered(b)
    ensures Ordered(ApplyAll(b, ops))
    ensures b.published <= ApplyAll(b, ops).published && b.dispatched <= ApplyAll(b, ops).dispatched
    decreases |ops|
  {
    if ops != [] {
      var p := ops[..|ops| - 1];
      EveryRunIsOrdered(b, p);
      match ops[|ops| - 1]
      case PublishOp(e) => PublishKeepsOrdered(ApplyAll(b, p), e);
      case TakeOp => TakeKeepsOrdered(ApplyAll(b, p));
    }
  }

  // Once published, the first n events are the first n handed out, whatever
  // handlers add meanwhile.
  lemma FirstPublishedFirstDispatched(b: BusState, ops: seq<Op>, n: nat)
    requires Ordered(b) && n <= |b.published|
    requires n <= |ApplyAll(b, ops).dispatched|
    ensures ApplyAll(b, ops).dispatched[..n] == b.published[..n]
  {
    EveryRunIsOrdered(b, ops);
    var c := ApplyAll(b, ops);
    assert c.published[..n] == b.published[..n];
  }

  lemma FreshIsOrdered(capacity: nat)
    ensures Ordered(FreshBus(capacity))
  {}
}
