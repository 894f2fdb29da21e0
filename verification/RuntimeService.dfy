// The runtime manager and the command bus as objects: every call is the matching
// function of RuntimeControl, and a whole session of requests is a run.
module RuntimeService {
  import opened Wrappers
  import opened RuntimeControl
  import opened RuntimeRuns
  import P = Projections

  class RuntimeManager {
    var registry: seq<Bot>
    var file: seq<Row>
    var db: map<string, P.Position>
    var control: Control

    constructor (registry: seq<Bot>, file: seq<Row>, db: map<string, P.Position>)
      ensures View() == World(registry, file, db, OFF)
    {
      this.registry, this.file, this.db, control := registry, file, db, OFF;
    }

    function View(): World
      reads this
    {
      World(registry, file, db, control)
    }

    method ListBotStates() returns (rows: seq<Row>)
      ensures rows == ListAll(View(), registry)
    {
      rows := [];
      for i := 0 to |registry|
        invariant rows == ListAll(View(), registry[..i])
      {
        assert registry[..i + 1][..i] == registry[..i];
        rows := rows + [Listed(View(), registry[i])];
      }
      assert registry[..|registry|] == registry;
    }

    method RecordTradeEvent(e: P.Event)
      modifies this
      ensures registry == old(registry) && file == P.PatchRows(old(file), e) && control == old(control)
      ensures db == if e.botId in old(db) then old(db)[e.botId := P.RowUpdate(old(db)[e.botId], e)] else old(db)
    {
      file := P.PatchRows(file, e);
      if e.botId in db {
        db := db[e.botId := P.RowUpdate(db[e.botId], e)];
      }
    }

    method UpsertState(row: Row)
      modifies this
      ensures View() == old(View()).(file := Upsert(old(file), row))
    {
      file := Upsert(file, row);
    }

    // A refused transition changes nothing.
    method MakeTransition(key: string, status: RunStatus, now: int) returns (ok: bool)
      modifies this
      ensures ok <==> Transition(old(View()), key, status, now).Some?
      ensures View() == OrSame(Transition(old(View()), key, status, now), old(View()))
    {
      var found := FindBot(View(), key);
      if found.None? {
        return false;
      }
      var id := found.value.id;
      var current := Listed(View(), found.value).(status := status, lastHeartbeat := Some(now));
      ListedId(View(), found.value);
      RecordTradeEvent(TransitionEvent(id, status, now));
      UpsertState(current);
      registry := Marked(registry, id, StateOf(status), now);
      return true;
    }

    method RestartBot(key: string, now: int) returns (ok: bool)
      modifies this
      ensures ok <==> Restart(old(View()), key, now).Some?
      ensures ok ==> View() == Restart(old(View()), key, now).value
      ensures Transition(old(View()), key, P.StoppedNow, now).None? ==> View() == old(View())
    {
      ok := MakeTransition(key, P.StoppedNow, now);
      if ok {
        ok := MakeTransition(key, P.RunningNow, now);
      }
    }

    method ReconcileBot(id: string) returns (ok: bool)
      modifies this
      ensures ok <==> Reconcile(old(View()), id).Some?
      ensures View() == OrSame(Reconcile(old(View()), id), old(View()))
    {
      var found := ById(registry, id);
      if found.None? {
        return false;
      }
      UpsertState(Listed(View(), found.value));
      return true;
    }

    method StartRuntime(now: int)
      modifies this
      ensures View() == old(View()).(control := Started(now))
    {
      control := Started(now);
    }

    method StopRuntime(now: int)
      modifies this
      ensures View() == old(View()).(control := SwitchedOff(old(control), now))
    {
      control := control.(running := false, heartbeatAt := Some(now));
    }

    // Switches the runtime on if need be; then all bots are listed, each running one
    // gets its beat written and is restarted when its last beat was stale.
    method RuntimeHeartbeat(now: int) returns (restarted: seq<string>)
      modifies this
      ensures (View(), restarted) == Heartbeat(old(View()), now)
    {
      hide Supervise, Restart, Upsert, Listed, IsStale, Stamped;
      if !control.running {
        StartRuntime(now);
      }
      control := control.(heartbeatAt := Some(now));
      ghost var on := View();
      var rows := ListBotStates();
      restarted := [];
      for i := 0 to |rows|
        invariant (View(), restarted) == SuperviseAll(on, rows[..i], now)
        invariant SameIds(on, View())
      {
        hide Heartbeat;
        assert rows[..i + 1][..i] == rows[..i];
        ListedId(on, on.registry[i]);
        var again := SuperviseBot(rows[i], i, now);
        restarted := if again then restarted + [rows[i].botId] else restarted;
      }
      assert rows[..|rows|] == rows;
    }

    // One listed row, of the i-th bot.
    method SuperviseBot(row: Row, i: nat, now: int) returns (restarted: bool)
      requires i < |registry| && row.botId == registry[i].id
      modifies this
      ensures (View(), restarted) == Supervise(old(View()), row, now) && SameIds(old(View()), View())
    {
      hide Restart, Upsert, Listed, IsStale;
      SuperviseStamps(View(), row, i, now);
      restarted := false;
      if row.status == P.RunningNow {
        UpsertState(row.(lastHeartbeat := Some(now)));
        if IsStale(row, now) {
          RestartsItself(View(), i, now);
          restarted := RestartBot(row.botId, now);
        }
      }
    }
  }

  // ------------------------------------------------------------- the command bus

  datatype CommandAction =
    | StartRuntime | StopRuntime | OnBot(action: Action) | OnPosition | ShowStatus | Unsupported

  datatype Command = Command(id: string, action: CommandAction, botId: string)

  datatype Refusal = UnsupportedAction | BotIdRequired | UnknownBot

  datatype Reply = Done | DuplicateIgnored | Refused(why: Refusal)

  // Some listed bot has the id or the name, even one that a later bot of its id hides.
  predicate BotExists(w: World, key: string) {
    exists b :: b in w.registry && (b.id == key || b.name == key)
  }

  // What a command that is new does to the bots.
  function Execute(w: World, c: Command, now: int): (World, Reply) {
    if c.action.Unsupported? then (w, Refused(UnsupportedAction))
    else if (c.action.OnBot? || c.action.OnPosition?) && c.botId == "" then (w, Refused(BotIdRequired))
    else match c.action
      case OnBot(action) =>
        var t := Acted(w, action, c.botId, now);
        (OrSame(t, w), if t.Some? then Done else Refused(UnknownBot))
      case StartRuntime => (w.(control := Started(now)), Done)
      case StopRuntime => (w.(control := SwitchedOff(w.control, now)), Done)
      case OnPosition => (w, if BotExists(w, c.botId) then Done else Refused(UnknownBot))
      case _ => (w, Done)
  }

  // The flag a caller sees.
  predicate SaysOk(r: Reply) {
    !r.Refused?
  }

  // The ids already taken, and the world behind the manager.
  datatype Session = Session(seen: set<string>, world: World)

  // A command id is spent by its first delivery, whatever came of it.
  function Deliver(s: Session, c: Command, now: int): (Session, Reply) {
    if c.id in s.seen then (s, DuplicateIgnored)
    else
      var (w, reply) := Execute(s.world, c, now);
      (Session(s.seen + {c.id}, w), reply)
  }

  class RuntimeCommandBus {
    const manager: RuntimeManager
    var seen: set<string>

    constructor (manager: RuntimeManager)
      ensures this.manager == manager && seen == {}
    {
      this.manager, seen := manager, {};
    }

    function View(): Session
      reads this, manager
    {
      Session(seen, manager.View())
    }

    method Dispatch(c: Command, now: int) returns (reply: Reply)
      modifies this, manager
      ensures (View(), reply) == Deliver(old(View()), c, now)
    {
      hide Acted, FindBot;
      if c.id in seen {
        return DuplicateIgnored;
      }
      seen := seen + {c.id};
      if c.action.Unsupported? {
        return Refused(UnsupportedAction);
      }
      if (c.action.OnBot? || c.action.OnPosition?) && c.botId == "" {
        return Refused(BotIdRequired);
      }
      reply := ExecuteAction(c, now);
    }

    method ExecuteAction(c: Command, now: int) returns (reply: Reply)
      requires !c.action.Unsupported? && (c.action.OnBot? || c.action.OnPosition? ==> c.botId != "")
      modifies manager
      ensures (manager.View(), reply) == Execute(old(manager.View()), c, now)
    {
      hide Transition, FindBot;
      reply := Done;
      match c.action
      case OnBot(action) =>
        var ok := Move(manager, action, c.botId, now);
        if !ok { reply := Refused(UnknownBot); }
      case StartRuntime => manager.StartRuntime(now);
      case StopRuntime => manager.StopRuntime(now);
      case OnPosition =>
        if !BotExists(manager.View(), c.botId) { reply := Refused(UnknownBot); }
      case _ =>
    }
  }

  // A bot found for stopping is found again for starting: a restart is never left
  // half done.
  lemma RestartIsWhole(w: World, key: string, now: int)
    ensures Restart(w, key, now).Some? <==> FindBot(w, key).Some?
    ensures Transition(w, key, P.StoppedNow, now).Some? <==> FindBot(w, key).Some?
  {
    hide Transition, FindBot;
    TransitionWrites(w, key, P.StoppedNow, now);
    if FindBot(w, key).Some? {
      var stopped := Transition(w, key, P.StoppedNow, now).value;
      TransitionWrites(stopped, key, P.RunningNow, now);
      StillFound(w, stopped, key);
    }
  }

  // What a key finds depends on ids and names only.
  lemma StillFound(w: World, t: World, key: string)
    requires FindBot(w, key).Some? && SameNames(w.registry, t.registry)
    ensures FindBot(t, key).Some?
  {
    SameIndex(w.registry, t.registry, key);
    NameStillFound(w.registry, t.registry, 0, key);
  }

  ghost predicate SameNames(a: seq<Bot>, b: seq<Bot>) {
    |a| == |b| && forall i :: 0 <= i < |a| ==> a[i].id == b[i].id && a[i].name == b[i].name
  }

  lemma {:induction false} SameIndex(a: seq<Bot>, b: seq<Bot>, id: string)
    requires SameNames(a, b)
    ensures ById(a, id).Some? <==> ById(b, id).Some?
    ensures ById(a, id).Some? ==> ById(a, id).value.name == ById(b, id).value.name
    decreases |a|
  {
    if a != [] && a[|a| - 1].id != id { SameIndex(a[..|a| - 1], b[..|b| - 1], id); }
  }

  lemma {:induction false} NameStillFound(a: seq<Bot>, b: seq<Bot>, from: nat, name: string)
    requires SameNames(a, b)
    ensures ByName(a, from, name).Some? ==> ByName(b, from, name).Some?
    decreases |a| - from
  {
    if from < |a| {
      SameIndex(a, b, a[from].id);
      NameStillFound(a, b, from + 1, name);
    }
  }

  // ------------------------------------------------------------ whole sessions

  // A request over the command bus, or something the runtime does on its own.
  datatype Item = Request(c: Command, at: int) | System(op: Op)

  function Serve(s: Session, item: Item): Session {
    match item
    case System(op) => s.(world := Do(s.world, op).0)
    case Request(c, at) => Deliver(s, c, at).0
  }

  function ServeAll(s: Session, items: seq<Item>): Session {
    if items == [] then s else Serve(ServeAll(s, items[..|items| - 1]), items[|items| - 1])
  }

  // The ids of the requests among the items.
  function Ids(items: seq<Item>): set<string> {
    if items == [] then {}
    else Ids(items[..|items| - 1]) + if items[|items| - 1].Request? then {items[|items| - 1].c.id} else {}
  }

  // The operation a request asks for, if it is well formed and asks for any.
  function Asked(c: Command, at: int): Option<Op> {
    match c.action
    case OnBot(action) => if c.botId == "" then None else Some(Act(action, c.botId, at))
    case StartRuntime => Some(Switch(true, at))
    case StopRuntime => Some(Switch(false, at))
    case _ => None
  }

  // What takes effect: the runtime's own operations, and the first delivery of each
  // request that asks for one.
  function Effective(items: seq<Item>): seq<Op> {
    if items == [] then []
    else
      var p := items[..|items| - 1];
      match items[|items| - 1]
      case System(op) => Effective(p) + [op]
      case Request(c, at) =>
        if c.id in Ids(p) || Asked(c, at).None? then Effective(p) else Effective(p) + [Asked(c, at).value]
  }

  // A session is the run of what takes effect in it: repeated command ids and
  // malformed requests leave no trace.
  lemma {:induction false} SessionIsRun(w: World, items: seq<Item>)
    ensures ServeAll(Session({}, w), items) == Session(Ids(items), Run(w, Effective(items)))
    decreases |items|
  {
    hide Do, Effective, Run, Serve, Effect;
    if items == [] {
      NothingEffective(w);
    } else {
      var p, item := items[..|items| - 1], items[|items| - 1];
      SessionIsRun(w, p);
      StepIsRun(ServeAll(Session({}, w), p), item);
      EffectiveStep(w, items);
    }
  }

  lemma NothingEffective(w: World)
    ensures Effective([]) == [] && Run(w, []) == w
  {}

  // The run of what takes effect, with one item more.
  lemma EffectiveStep(w: World, items: seq<Item>)
    requires items != []
    ensures var p, item := items[..|items| - 1], items[|items| - 1];
            var before := Run(w, Effective(p));
            Run(w, Effective(items)) ==
            if Effect(Ids(p), item).Some? then Do(before, Effect(Ids(p), item).value).0 else before
  {
    hide Do;
    var p := items[..|items| - 1];
    var e := Effective(items);
    assert e != Effective(p) ==> e[..|e| - 1] == Effective(p);
  }

  // The operation an item stands for, if it has not been seen.
  function Effect(seen: set<string>, item: Item): Option<Op> {
    match item
    case System(op) => Some(op)
    case Request(c, at) =>
      if c.id in seen then None else Asked(c, at)
  }

  lemma StepIsRun(s: Session, item: Item)
    ensures Serve(s, item).world ==
            (if Effect(s.seen, item).Some? then Do(s.world, Effect(s.seen, item).value).0 else s.world)
    ensures Serve(s, item).seen == s.seen + if item.Request? then {item.c.id} else {}
  {
    hide Acted, Heartbeat, Reconcile;
  }

  // Dropping a redelivered request from a session, wherever it stands, changes nothing.
  lemma RedeliveryChangesNothing(w: World, before: seq<Item>, again: Item, after: seq<Item>)
    requires again.Request? && again.c.id in Ids(before)
    ensures ServeAll(Session({}, w), before + [again] + after) == ServeAll(Session({}, w), before + after)
  {
    SessionIsRun(w, before);
    ServeAllAppend(Session({}, w), before, after);
    ServeAllAppend(Session({}, w), before + [again], after);
    assert (before + [again])[..|before|] == before;
  }

  lemma {:induction false} ServeAllAppend(s: Session, a: seq<Item>, b: seq<Item>)
    ensures ServeAll(s, a + b) == ServeAll(ServeAll(s, a), b)
    decreases |b|
  {
    hide Serve;
    if b == [] {
      assert a + b == a;
    } else {
      ServeAllAppend(s, a, b[..|b| - 1]);
      assert (a + b)[..|a + b| - 1] == a + b[..|b| - 1];
    }
  }

  // Every session keeps the registry and the state file consistent, and restarts
  // no bot twice as long as its heartbeats are prompt.
  lemma EverySessionIsSafe(w: World, items: seq<Item>)
    requires Consistent(w)
    ensures Consistent(ServeAll(Session({}, w), items).world)
    ensures Prompt(Effective(items)) ==> NoRepeats(Restarts(w, Effective(items)))
  {
    SessionIsRun(w, items);
    hide Run, Restarts, Effective, ServeAll;
    EveryRunIsConsistent(w, Effective(items));
    if Prompt(Effective(items)) { PromptRunsRestartOnce(w, Effective(items)); }
  }

  // A request the runtime can act on: a known action, and for one on a bot or a
  // position a key that finds a bot.
  predicate Answerable(w: World, c: Command) {
    && !c.action.Unsupported?
    && (c.action.OnBot? ==> c.botId != "" && FindBot(w, c.botId).Some?)
    && (c.action.OnPosition? ==> c.botId != "" && exists b :: b in w.registry && (c.botId == b.id || c.botId == b.name))
  }

  lemma ActsIffFound(w: World, action: Action, key: string, now: int)
    ensures Acted(w, action, key, now).Some? <==> FindBot(w, key).Some?
  {
    hide Transition, FindBot, Restart;
    TransitionWrites(w, key, P.RunningNow, now);
    TransitionWrites(w, key, P.StoppedNow, now);
    TransitionWrites(w, key, P.PausedNow, now);
    RestartIsWhole(w, key, now);
  }

  // A new request succeeds exactly when it is answerable, and has no effect otherwise.
  lemma NewRequestSucceedsIff(s: Session, c: Command, at: int)
    requires c.id !in s.seen
    ensures SaysOk(Deliver(s, c, at).1) <==> Answerable(s.world, c)
    ensures !Answerable(s.world, c) ==> Deliver(s, c, at).0.world == s.world
  {
    hide Acted, FindBot;
    if c.action.OnBot? { ActsIffFound(s.world, c.action.action, c.botId, at); }
  }

  // However much later it is sent again, a request is answered with success and not
  // tried again; so the answers to a new request and to its repeat agree exactly when
  // the request was answerable the first time.
  lemma RefusedRequestIsSpent(s: Session, c: Command, at: int, later: seq<Item>, again: int)
    requires c.id !in s.seen
    ensures var first := Deliver(s, c, at);
            var t := ServeAll(first.0, later);
            && Deliver(t, c, again) == (t, DuplicateIgnored)
            && (SaysOk(Deliver(t, c, again).1) == SaysOk(first.1) <==> Answerable(s.world, c))
  {
    hide Acted, Answerable;
    NewRequestSucceedsIff(s, c, at);
    SeenGrows(Deliver(s, c, at).0, later);
  }

  lemma {:induction false} SeenGrows(s: Session, items: seq<Item>)
    ensures s.seen <= ServeAll(s, items).seen
    decreases |items|
  {
    hide Execute, Do;
    if items != [] { SeenGrows(s, items[..|items| - 1]); }
  }

  // The bus and its manager through a whole session: what is proved of sessions holds
  // of the objects.
  method Work(manager: RuntimeManager, items: seq<Item>) returns (bus: RuntimeCommandBus)
    modifies manager
    ensures fresh(bus) && bus.manager == manager
    ensures bus.View() == ServeAll(Session({}, old(manager.View())), items)
  {
    hide Deliver, Acted, Reconcile, Heartbeat;
    bus := new RuntimeCommandBus(manager);
    for n := 0 to |items|
      invariant fresh(bus) && bus.manager == manager
      invariant bus.View() == ServeAll(Session({}, old(manager.View())), items[..n])
    {
      assert items[..n + 1][..n] == items[..n];
      match items[n] {
        case Request(c, at) => var _ := bus.Dispatch(c, at);
        case System(op) => Perform(manager, op);
      }
    }
    assert items[..|items|] == items;
  }

  // An operation of the runtime's own.
  method Perform(manager: RuntimeManager, op: Op)
    modifies manager
    ensures manager.View() == Do(old(manager.View()), op).0
  {
    hide Transition, Restart, Reconcile, Heartbeat;
    match op
    case Act(action, key, now) => var _ := Move(manager, action, key, now);
    case Beat(now) => var _ := manager.RuntimeHeartbeat(now);
    case Recon(id) => var _ := manager.ReconcileBot(id);
    case Switch(on, now) => if on { manager.StartRuntime(now); } else { manager.StopRuntime(now); }
  }

  method Move(manager: RuntimeManager, action: Action, key: string, now: int) returns (ok: bool)
    modifies manager
    ensures ok <==> Acted(old(manager.View()), action, key, now).Some?
    ensures manager.View() == OrSame(Acted(old(manager.View()), action, key, now), old(manager.View()))
  {
    hide Transition, FindBot;
    match action
    case StartBot | ResumeBot => ok := manager.MakeTransition(key, P.RunningNow, now);
    case StopBot => ok := manager.MakeTransition(key, P.StoppedNow, now);
    case PauseBot => ok := manager.MakeTransition(key, P.PausedNow, now);
    case RestartBot =>
      RestartIsWhole(manager.View(), key, now);
      ok := manager.RestartBot(key, now);
  }
}
