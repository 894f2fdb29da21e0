// One log of trade events, projected twice: into the runtime state file and into
// the bot table of the database.
module Projections {
  import opened Wrappers

  // Order statuses after upper-casing; Other stands for every unrecognised text.
  datatype Status =
    | Started | Created | Validated | Acknowledged | Submitted | Filled
    | PartiallyFilled | Partial | PartiallyExited | PartialExit
    | StopTriggered | Stopped | RiskTriggered | RiskBlocked
    | Closed | Exited | Cancelled | Canceled
    | Rejected | Failed | ErrorStatus | Paused | Running | Other

  datatype Kind =
    | TradeCreated | TradeEntered | TradeUpdated | StopHit | RiskHit | TradeExited | RuntimeAlert
    | BotStopped | BotPaused | PnlSnapshot

  datatype Lifecycle =
    | Pending | OrderSubmitted | Part | Full | PartOut | Over | CalledOff | Broken | Active

  function KindOf(s: Status): Kind {
    match s
    case Started | Created | Validated => TradeCreated
    case Acknowledged | Submitted | Filled => TradeEntered
    case PartiallyFilled | Partial => TradeUpdated
    case StopTriggered | Stopped => StopHit
    case RiskTriggered | RiskBlocked => RiskHit
    case Closed | Exited | Cancelled | Canceled => TradeExited
    case Rejected | Failed | ErrorStatus => RuntimeAlert
    case _ => TradeUpdated
  }

  function LifecycleOf(s: Status): Lifecycle {
    match s
    case Started | Created | Validated => Pending
    case Acknowledged | Submitted => OrderSubmitted
    case PartiallyFilled | Partial => Part
    case Filled => Full
    case PartiallyExited | PartialExit => PartOut
    case Closed | Exited | StopTriggered | Stopped => Over
    case Cancelled | Canceled => CalledOff
    case Rejected | Failed | ErrorStatus => Broken
    case _ => Active
  }

  predicate IsOpenPosition(s: Status, quantity: real) {
    quantity > 0.0 && s !in {Cancelled, Canceled, Rejected, Failed, Closed}
  }

  datatype Event = Event(id: string, time: int, botId: string, kind: Kind, open: bool, lifecycle: Lifecycle)

  // An order-lifecycle call: what the manager turns into one event.
  datatype Call = Call(id: string, time: int, botId: string, status: Status, quantity: real)

  function EventOf(c: Call): Event {
    Event(c.id, c.time, c.botId, KindOf(c.status), IsOpenPosition(c.status, c.quantity), LifecycleOf(c.status))
  }

  datatype Place = Nowhere | InTrade | OutOfTrade

  // The position columns both projections keep.
  datatype Position = Position(
    place: Place, lastEntry: Option<int>, lastExit: Option<int>, lastKind: Option<Kind>, lastAt: Option<int>)

  function Enter(p: Position, e: Event): Position {
    p.(place := InTrade, lastEntry := Some(e.time), lastKind := Some(e.kind), lastAt := Some(e.time))
  }

  function Leave(p: Position, e: Event): Position {
    p.(place := OutOfTrade, lastExit := Some(e.time), lastKind := Some(e.kind), lastAt := Some(e.time))
  }

  // The state-file patch.
  function FilePatch(p: Position, e: Event): Position {
    if e.kind == PnlSnapshot then p
    else if e.kind == TradeEntered && e.open then Enter(p, e)
    else if e.kind in {TradeExited, StopHit, RiskHit} || e.lifecycle in {Over, CalledOff, Broken} then Leave(p, e)
    else p
  }

  // The database update.
  function RowUpdate(p: Position, e: Event): Position {
    if e.kind == TradeEntered then Enter(p, e)
    else if e.kind in {TradeExited, StopHit, RiskHit, BotStopped} then Leave(p, e)
    else p
  }

  // ---------------------------------------------------------------- the stores

  datatype RunStatus = RunningNow | PausedNow | StoppedNow | ErrorNow

  // One row of the state file.  Heartbeat times are in seconds.
  datatype FileRow = FileRow(botId: string, status: RunStatus, lastHeartbeat: Option<int>, position: Position)

  function PatchRows(rows: seq<FileRow>, e: Event): (r: seq<FileRow>)
    ensures |r| == |rows|
    ensures forall i :: 0 <= i < |r| ==>
              r[i] == if rows[i].botId == e.botId then rows[i].(position := FilePatch(rows[i].position, e)) else rows[i]
  {
    if rows == [] then []
    else
      var x := rows[|rows| - 1];
      PatchRows(rows[..|rows| - 1], e) + [if x.botId == e.botId then x.(position := FilePatch(x.position, e)) else x]
  }

  class StateFile {
    var rows: seq<FileRow>

    constructor (rows: seq<FileRow>)
      ensures this.rows == rows
    {
      this.rows := rows;
    }

    // Every row of the event's bot is patched where it stands.
    method PatchTradePosition(e: Event)
      modifies this
      ensures rows == PatchRows(old(rows), e)
    {
      for i := 0 to |rows|
        invariant |rows| == |old(rows)|
        invariant forall j :: 0 <= j < i ==> rows[j] == PatchRows(old(rows), e)[j]
        invariant forall j :: i <= j < |rows| ==> rows[j] == old(rows)[j]
      {
        if rows[i].botId == e.botId {
          rows := rows[i := rows[i].(position := FilePatch(rows[i].position, e))];
        }
      }
    }
  }

  datatype Database = Database(events: map<string, Event>, bots: map<string, Position>)

  // An event id that is already stored is not applied again; a bot without a row
  // only gets its event stored.
  function Append(d: Database, e: Event): Database {
    if e.id in d.events then d
    else
      Database(d.events[e.id := e],
               if e.botId in d.bots then d.bots[e.botId := RowUpdate(d.bots[e.botId], e)] else d.bots)
  }

  class BotRepository {
    var events: map<string, Event>
    var bots: map<string, Position>

    constructor (bots: map<string, Position>)
      ensures View() == Database(map[], bots)
    {
      events, this.bots := map[], bots;
    }

    function View(): Database
      reads this
    {
      Database(events, bots)
    }

    method AppendRuntimeEvent(e: Event)
      modifies this
      ensures View() == Append(old(View()), e)
    {
      if e.id in events {
        return;
      }
      events := events[e.id := e];
      if e.botId in bots {
        bots := bots[e.botId := RowUpdate(bots[e.botId], e)];
      }
    }
  }

  // ------------------------------------------------------------ main results

  // Redelivering an applied event changes nothing.
  lemma RedeliveryIsIgnored(d: Database, e: Event, later: seq<Event>)
    ensures var applied := AppendAll(Append(d, e), later);
            Append(applied, e) == applied
  {
    StoredForever(Append(d, e), later, e.id);
  }

  function AppendAll(d: Database, es: seq<Event>): Database {
    if es == [] then d else Append(AppendAll(d, es[..|es| - 1]), es[|es| - 1])
  }

  lemma {:induction false} StoredForever(d: Database, es: seq<Event>, id: string)
    requires id in d.events
    ensures id in AppendAll(d, es).events
    decreases |es|
  {
    if es != [] { StoredForever(d, es[..|es| - 1], id); }
  }

  // The calls on which the two projections mean the same.
  predicate Concordant(c: Call) {
    && c.status !in {Rejected, Failed, ErrorStatus}
    && (KindOf(c.status) == TradeEntered ==> c.quantity > 0.0)
  }

  // The projections agree from every starting row exactly on the concordant calls.
  lemma ProjectionsAgreeIffConcordant(c: Call)
    ensures (forall p: Position :: FilePatch(p, EventOf(c)) == RowUpdate(p, EventOf(c))) <==> Concordant(c)
  {
    if !Concordant(c) {
      var p := Position(Nowhere, None, None, None, None);
      assert FilePatch(p, EventOf(c)) != RowUpdate(p, EventOf(c));
    }
  }

  // What one bot's file row and database row become under a log of calls; only
  // the bot's own calls matter.
  function FileAfter(p: Position, bot: string, calls: seq<Call>): Position {
    if calls == [] then p
    else
      var q, c := FileAfter(p, bot, calls[..|calls| - 1]), calls[|calls| - 1];
      if c.botId == bot then FilePatch(q, EventOf(c)) else q
  }

  function RowAfter(p: Position, bot: string, calls: seq<Call>): Position {
    if calls == [] then p
    else
      var q, c := RowAfter(p, bot, calls[..|calls| - 1]), calls[|calls| - 1];
      if c.botId == bot then RowUpdate(q, EventOf(c)) else q
  }

  function Events(calls: seq<Call>): seq<Event> {
    if calls == [] then [] else Events(calls[..|calls| - 1]) + [EventOf(calls[|calls| - 1])]
  }

  predicate DistinctIds(calls: seq<Call>) {
    forall i, j :: 0 <= i < j < |calls| ==> calls[i].id != calls[j].id
  }

  // Only the log's own events are added.
  lemma {:induction false} StoredIds(d: Database, calls: seq<Call>, id: string)
    requires id !in d.events && forall i :: 0 <= i < |calls| ==> calls[i].id != id
    ensures id !in AppendAll(d, Events(calls)).events
    decreases |calls|
  {
    hide RowUpdate, KindOf, LifecycleOf;
    if calls != [] {
      var p := calls[..|calls| - 1];
      StoredIds(d, p, id);
      EventsLength(p);
      assert Events(calls)[..|p|] == Events(p);
    }
  }

  // With distinct event ids the stored rows are those per-bot projections.
  lemma {:induction false} DatabaseRowAfter(d: Database, bot: string, calls: seq<Call>)
    requires bot in d.bots && DistinctIds(calls)
    requires forall i :: 0 <= i < |calls| ==> calls[i].id !in d.events
    ensures var after := AppendAll(d, Events(calls));
            bot in after.bots && after.bots[bot] == RowAfter(d.bots[bot], bot, calls)
    decreases |calls|
  {
    hide RowUpdate, KindOf, LifecycleOf;
    if calls != [] {
      var p := calls[..|calls| - 1];
      DatabaseRowAfter(d, bot, p);
      StoredIds(d, p, calls[|calls| - 1].id);
      EventsLength(p);
      assert Events(calls)[..|p|] == Events(p);
    }
  }

  lemma {:induction false} EventsLength(calls: seq<Call>)
    ensures |Events(calls)| == |calls|
    decreases |calls|
  {
    if calls != [] { EventsLength(calls[..|calls| - 1]); }
  }

  function PatchAll(rows: seq<FileRow>, es: seq<Event>): seq<FileRow> {
    if es == [] then rows else PatchRows(PatchAll(rows, es[..|es| - 1]), es[|es| - 1])
  }

  lemma {:induction false} FileRowAfter(rows: seq<FileRow>, calls: seq<Call>, i: nat)
    requires i < |rows|
    ensures var after := PatchAll(rows, Events(calls));
            && |after| == |rows|
            && after[i] == rows[i].(position := FileAfter(rows[i].position, rows[i].botId, calls))
    decreases |calls|
  {
    if calls != [] {
      var p := calls[..|calls| - 1];
      FileRowAfter(rows, p, i);
      EventsLength(p);
      assert Events(calls)[..|p|] == Events(p);
    }
  }

  // After every log of concordant calls with distinct event ids, a bot's file row
  // and database row still hold the same position, entry and exit.
  lemma ProjectionsStayEqual(rows: seq<FileRow>, i: nat, d: Database, calls: seq<Call>)
    requires i < |rows| && rows[i].botId in d.bots && rows[i].position == d.bots[rows[i].botId]
    requires DistinctIds(calls) && forall j :: 0 <= j < |calls| ==> calls[j].id !in d.events && Concordant(calls[j])
    ensures var bot := rows[i].botId;
            var file, db := PatchAll(rows, Events(calls)), AppendAll(d, Events(calls));
            |file| == |rows| && bot in db.bots && file[i] == rows[i].(position := db.bots[bot])
  {
    FileRowAfter(rows, calls, i);
    DatabaseRowAfter(d, rows[i].botId, calls);
    SameAfter(rows[i].position, rows[i].botId, calls);
  }

  // Everything a position remembers is older than t.
  predicate OlderThan(p: Position, t: int) {
    && (p.lastEntry.Some? ==> p.lastEntry.value < t)
    && (p.lastExit.Some? ==> p.lastExit.value < t)
    && (p.lastAt.Some? ==> p.lastAt.value < t)
  }

  // Times increase along the log, from later than the row's.
  predicate Chronological(p: Position, calls: seq<Call>) {
    && (forall i :: 0 <= i < |calls| ==> OlderThan(p, calls[i].time))
    && (forall i, j :: 0 <= i < j < |calls| ==> calls[i].time < calls[j].time)
  }

  // On a newer call equal rows stay equal exactly when the call is concordant.
  lemma ConcordantIffSame(p: Position, c: Call)
    requires OlderThan(p, c.time)
    ensures FilePatch(p, EventOf(c)) == RowUpdate(p, EventOf(c)) <==> Concordant(c)
  {}

  lemma {:induction false} FileAfterIsOlder(p: Position, bot: string, calls: seq<Call>, n: nat)
    requires Chronological(p, calls) && n < |calls|
    ensures OlderThan(FileAfter(p, bot, calls[..n]), calls[n].time)
  {
    hide KindOf, LifecycleOf;
    if n > 0 {
      FileAfterIsOlder(p, bot, calls, n - 1);
      assert calls[..n][..n - 1] == calls[..n - 1];
    }
  }

  lemma AfterStep(p: Position, bot: string, calls: seq<Call>, n: nat)
    requires n < |calls|
    ensures FileAfter(p, bot, calls[..n + 1]) ==
            var q := FileAfter(p, bot, calls[..n]); if calls[n].botId == bot then FilePatch(q, EventOf(calls[n])) else q
    ensures RowAfter(p, bot, calls[..n + 1]) ==
            var q := RowAfter(p, bot, calls[..n]); if calls[n].botId == bot then RowUpdate(q, EventOf(calls[n])) else q
  {
    assert calls[..n + 1][..n] == calls[..n];
  }

  predicate AgreeAfter(p: Position, bot: string, calls: seq<Call>, n: nat)
    requires n <= |calls|
  {
    FileAfter(p, bot, calls[..n]) == RowAfter(p, bot, calls[..n])
  }

  // From equal rows, along a log of newer events in order of time, file and database
  // agree throughout exactly when every call of the bot is concordant.
  lemma LogAgreesIffConcordant(p: Position, bot: string, calls: seq<Call>)
    requires Chronological(p, calls)
    ensures (forall n :: 0 <= n <= |calls| ==> AgreeAfter(p, bot, calls, n)) <==>
            (forall n :: 0 <= n < |calls| && calls[n].botId == bot ==> Concordant(calls[n]))
  {
    hide FilePatch, RowUpdate, EventOf, Concordant, OlderThan, FileAfter, RowAfter;
    if forall n :: 0 <= n <= |calls| ==> AgreeAfter(p, bot, calls, n) {
      forall n | 0 <= n < |calls| && calls[n].botId == bot ensures Concordant(calls[n]) {
        assert AgreeAfter(p, bot, calls, n) && AgreeAfter(p, bot, calls, n + 1);
        AfterStep(p, bot, calls, n);
        FileAfterIsOlder(p, bot, calls, n);
        ConcordantIffSame(FileAfter(p, bot, calls[..n]), calls[n]);
      }
    }
    if forall n :: 0 <= n < |calls| && calls[n].botId == bot ==> Concordant(calls[n]) {
      forall n | 0 <= n <= |calls| ensures AgreeAfter(p, bot, calls, n) {
        AgreesSoFar(p, bot, calls, n);
      }
    }
  }

  lemma {:induction false} AgreesSoFar(p: Position, bot: string, calls: seq<Call>, n: nat)
    requires n <= |calls| && forall i :: 0 <= i < n && calls[i].botId == bot ==> Concordant(calls[i])
    ensures AgreeAfter(p, bot, calls, n)
  {
    hide FilePatch, RowUpdate, EventOf, Concordant;
    if n > 0 {
      AgreesSoFar(p, bot, calls, n - 1);
      AfterStep(p, bot, calls, n - 1);
      ProjectionsAgreeIffConcordant(calls[n - 1]);
    }
  }

  lemma {:induction false} SameAfter(p: Position, bot: string, calls: seq<Call>)
    requires forall j :: 0 <= j < |calls| ==> Concordant(calls[j])
    ensures FileAfter(p, bot, calls) == RowAfter(p, bot, calls)
    decreases |calls|
  {
    if calls != [] {
      SameAfter(p, bot, calls[..|calls| - 1]);
      ProjectionsAgreeIffConcordant(calls[|calls| - 1]);
      assert Concordant(calls[|calls| - 1]);
    }
  }

  // Entries and exits of a bot in a log.
  predicate HasEntry(bot: string, calls: seq<Call>) {
    exists i :: 0 <= i < |calls| && calls[i].botId == bot && KindOf(calls[i].status) == TradeEntered
  }

  predicate HasExit(bot: string, calls: seq<Call>) {
    exists i :: 0 <= i < |calls| && calls[i].botId == bot && KindOf(calls[i].status) in {TradeExited, StopHit, RiskHit}
  }

  lemma HasGrows(bot: string, calls: seq<Call>)
    requires calls != []
    ensures var p, c := calls[..|calls| - 1], calls[|calls| - 1];
            && (HasEntry(bot, calls) <==> HasEntry(bot, p) || (c.botId == bot && KindOf(c.status) == TradeEntered))
            && (HasExit(bot, calls) <==>
                 HasExit(bot, p) || (c.botId == bot && KindOf(c.status) in {TradeExited, StopHit, RiskHit}))
  {
    var p, c := calls[..|calls| - 1], calls[|calls| - 1];
    assert calls == p + [c];
    if HasEntry(bot, p) {
      var i :| 0 <= i < |p| && p[i].botId == bot && KindOf(p[i].status) == TradeEntered;
      assert calls[i] == p[i];
    }
    if HasExit(bot, p) {
      var i :| 0 <= i < |p| && p[i].botId == bot && KindOf(p[i].status) in {TradeExited, StopHit, RiskHit};
      assert calls[i] == p[i];
    }
  }

  // However far apart they were, the projections agree on the position from the
  // first shared entry or exit on, on the last entry from the first entry on, and
  // on the last exit from the first exit on.
  lemma {:induction false} ProjectionsReconverge(p: Position, q: Position, bot: string, calls: seq<Call>)
    requires forall j :: 0 <= j < |calls| ==> Concordant(calls[j])
    ensures var f, r := FileAfter(p, bot, calls), RowAfter(q, bot, calls);
            && (HasEntry(bot, calls) ==> f.lastEntry == r.lastEntry)
            && (HasExit(bot, calls) ==> f.lastExit == r.lastExit)
            && (HasEntry(bot, calls) || HasExit(bot, calls) ==>
                 f.place == r.place && f.lastKind == r.lastKind && f.lastAt == r.lastAt)
            && (HasEntry(bot, calls) && HasExit(bot, calls) ==> f == r)
    decreases |calls|
  {
    if calls != [] {
      ProjectionsReconverge(p, q, bot, calls[..|calls| - 1]);
      HasGrows(bot, calls);
      assert Concordant(calls[|calls| - 1]);
    }
  }

  // ------------------------------------------------- positions by order status

  // The two places a position is kept.
  datatype Side = InFile | InDatabase

  function After(side: Side, p: Position, bot: string, calls: seq<Call>): Position {
    if side == InFile then FileAfter(p, bot, calls) else RowAfter(p, bot, calls)
  }

  // Orders that enter a trade; the file asks for a quantity as well.
  predicate Enters(side: Side, c: Call) {
    c.status in {Acknowledged, Submitted, Filled} && (side == InFile ==> c.quantity > 0.0)
  }

  // Orders that leave a trade; the file counts broken ones as well.
  predicate Leaves(side: Side, c: Call) {
    || c.status in {Closed, Exited, Cancelled, Canceled, StopTriggered, Stopped, RiskTriggered, RiskBlocked}
    || (side == InFile && c.status in {Rejected, Failed, ErrorStatus})
  }

  function OneCall(side: Side, p: Position, c: Call): Position {
    if side == InFile then FilePatch(p, EventOf(c)) else RowUpdate(p, EventOf(c))
  }

  // What the status of one order does to a position, on either side.
  lemma StatusDecides(side: Side, p: Position, c: Call)
    ensures var q := OneCall(side, p, c);
            && (Enters(side, c) ==>
                  q == Position(InTrade, Some(c.time), p.lastExit, Some(TradeEntered), Some(c.time)))
            && (Leaves(side, c) ==>
                  && q == Position(OutOfTrade, p.lastEntry, Some(c.time), q.lastKind, Some(c.time))
                  && (c.status in {Closed, Exited, Cancelled, Canceled} ==> q.lastKind == Some(TradeExited))
                  && (c.status in {StopTriggered, Stopped} ==> q.lastKind == Some(StopHit))
                  && (c.status in {RiskTriggered, RiskBlocked} ==> q.lastKind == Some(RiskHit))
                  && (c.status in {Rejected, Failed, ErrorStatus} ==> q.lastKind == Some(RuntimeAlert)))
            && (!Enters(side, c) && !Leaves(side, c) ==> q == p)
            && !(Enters(side, c) && Leaves(side, c))
  {}

  // The bot's last call that enters, or that leaves, a trade.
  function LastCall(side: Side, bot: string, calls: seq<Call>, entering: bool): Option<nat> {
    if calls == [] then None
    else
      var n := |calls| - 1;
      if calls[n].botId == bot && (if entering then Enters(side, calls[n]) else Leaves(side, calls[n])) then Some(n)
      else LastCall(side, bot, calls[..n], entering)
  }

  lemma {:induction false} LastCallIsLast(side: Side, bot: string, calls: seq<Call>, entering: bool)
    ensures var k := LastCall(side, bot, calls, entering);
            && (k.Some? ==> k.value < |calls| && calls[k.value].botId == bot
                            && (if entering then Enters(side, calls[k.value]) else Leaves(side, calls[k.value])))
            && forall i :: 0 <= i < |calls| && (k.Some? ==> k.value < i) && calls[i].botId == bot ==>
                 !(if entering then Enters(side, calls[i]) else Leaves(side, calls[i]))
    decreases |calls|
  {
    hide Enters, Leaves;
    if calls != [] { LastCallIsLast(side, bot, calls[..|calls| - 1], entering); }
  }

  // After any log a bot is in a trade exactly when its last entering call came after its
  // last leaving one, and remembers the times of both.
  lemma {:induction false} PositionIsTheLastCalls(side: Side, p: Position, bot: string, calls: seq<Call>)
    ensures var q := After(side, p, bot, calls);
            var e, x := LastCall(side, bot, calls, true), LastCall(side, bot, calls, false);
            && (e.Some? ==> e.value < |calls| && q.lastEntry == Some(calls[e.value].time))
            && (e.None? ==> q.lastEntry == p.lastEntry)
            && (x.Some? ==> x.value < |calls| && q.lastExit == Some(calls[x.value].time))
            && (x.None? ==> q.lastExit == p.lastExit)
            && (e.None? && x.None? ==> q == p)
            && (e.Some? && (x.Some? ==> x.value < e.value) ==> q.place == InTrade && q.lastAt == q.lastEntry)
            && (x.Some? && (e.Some? ==> e.value < x.value) ==> q.place == OutOfTrade && q.lastAt == q.lastExit)
            && (e.Some? && x.Some? ==> e.value != x.value)
    decreases |calls|
  {
    hide Enters, Leaves, FilePatch, RowUpdate, EventOf;
    if calls != [] {
      var n := |calls| - 1;
      PositionIsTheLastCalls(side, p, bot, calls[..n]);
      StatusDecides(side, After(side, p, bot, calls[..n]), calls[n]);
    }
  }

  // ----------------------------------------------------------- the recorded event

  // What an order's event says of its status: the lifecycle names it, and the type fits.
  lemma EventNamesStatus(c: Call)
    ensures var e := EventOf(c);
            && e.id == c.id && e.time == c.time && e.botId == c.botId
            && (e.lifecycle == Pending <==> c.status in {Started, Created, Validated})
            && (e.lifecycle == OrderSubmitted <==> c.status in {Acknowledged, Submitted})
            && (e.lifecycle == Part <==> c.status in {PartiallyFilled, Partial})
            && (e.lifecycle == Full <==> c.status == Filled)
            && (e.lifecycle == PartOut <==> c.status in {PartiallyExited, PartialExit})
            && (e.lifecycle == Over <==> c.status in {Closed, Exited, StopTriggered, Stopped})
            && (e.lifecycle == CalledOff <==> c.status in {Cancelled, Canceled})
            && (e.lifecycle == Broken <==> c.status in {Rejected, Failed, ErrorStatus})
    ensures var e := EventOf(c);
            && (e.kind == TradeCreated <==> e.lifecycle == Pending)
            && (e.kind == TradeEntered <==> e.lifecycle in {OrderSubmitted, Full})
            && (e.kind == RuntimeAlert <==> e.lifecycle == Broken)
            && (e.kind in {TradeExited, StopHit} <==> e.lifecycle in {Over, CalledOff})
            && (e.kind == RiskHit <==> c.status in {RiskTriggered, RiskBlocked})
            && e.kind !in {BotStopped, BotPaused, PnlSnapshot}
  {}

  // The event's position flag can contradict what it does: it says open although the file
  // row leaves its trade exactly for these statuses, with a quantity.
  lemma OpenFlagContradictsIff(c: Call)
    ensures EventOf(c).open && Leaves(InFile, c) <==>
              c.quantity > 0.0
              && c.status in {Exited, StopTriggered, Stopped, RiskTriggered, RiskBlocked, ErrorStatus}
    ensures EventOf(c).open ==> c.quantity > 0.0
    ensures c.quantity > 0.0 && !Leaves(InFile, c) ==> EventOf(c).open
  {}

}
