// The headless runtime: bot transitions, heartbeats and reconciliation over a
// registry and a state file that must tell the same story.
module RuntimeControl {
  import opened Wrappers
  import P = Projections

  datatype BotState = Draft | Backtested | Deployed | Running | Paused | Failed | Stopped

  type RunStatus = P.RunStatus
  type Row = P.FileRow

  function StatusOf(s: BotState): RunStatus {
    match s
    case Running | Deployed => P.RunningNow
    case Paused => P.PausedNow
    case Failed => P.ErrorNow
    case _ => P.StoppedNow
  }

  // The registry state a transition writes.
  function StateOf(s: RunStatus): BotState {
    match s
    case RunningNow => Running
    case PausedNow => Paused
    case _ => Stopped
  }

  datatype Bot = Bot(id: string, name: string, state: BotState, heartbeatAt: Option<int>)

  const NO_POSITION := P.Position(P.Nowhere, None, None, None, None)

  // The control file: whether the runtime is switched on, since when, last heartbeat.
  datatype Control = Control(running: bool, startedAt: Option<int>, heartbeatAt: Option<int>)

  datatype World = World(registry: seq<Bot>, file: seq<Row>, db: map<string, P.Position>, control: Control)

  // ------------------------------------------------------------ reading state

  // The persisted row of a bot; the last one wins when there are several.
  function Persisted(file: seq<Row>, id: string): Option<Row> {
    if file == [] then None
    else if file[|file| - 1].botId == id then Some(file[|file| - 1])
    else Persisted(file[..|file| - 1], id)
  }

  // A listed bot: the persisted row if there is one, else a row from the registry.
  function Listed(w: World, b: Bot): Row {
    var row := Persisted(w.file, b.id);
    if row.Some? then row.value else P.FileRow(b.id, StatusOf(b.state), b.heartbeatAt, NO_POSITION)
  }

  // Rows are looked up in a dictionary by id, so the last bot of an id counts.
  function ById(registry: seq<Bot>, id: string): Option<Bot> {
    if registry == [] then None
    else if registry[|registry| - 1].id == id then Some(registry[|registry| - 1])
    else ById(registry[..|registry| - 1], id)
  }

  // The first dictionary entry with the name, in registry order.
  function ByName(registry: seq<Bot>, from: nat, name: string): Option<Bot>
    decreases |registry| - from
  {
    if from >= |registry| then None
    else
      var b := ById(registry, registry[from].id);
      if b.Some? && b.value.name == name then b else ByName(registry, from + 1, name)
  }

  // A key names a bot by id, or failing that by name.
  function FindBot(w: World, key: string): Option<Bot> {
    var byId := ById(w.registry, key);
    if byId.Some? then byId else ByName(w.registry, 0, key)
  }

  // ------------------------------------------------------------ writing state

  function Without(file: seq<Row>, id: string): seq<Row> {
    if file == [] then []
    else
      var rest := Without(file[..|file| - 1], id);
      if file[|file| - 1].botId == id then rest else rest + [file[|file| - 1]]
  }

  // Upserting moves the row to the end.
  function Upsert(file: seq<Row>, row: Row): seq<Row> {
    Without(file, row.botId) + [row]
  }

  // The registry marks every bot whose id or name is the given id.
  function Marked(registry: seq<Bot>, id: string, state: BotState, now: int): (r: seq<Bot>)
    ensures |r| == |registry|
    ensures forall i :: 0 <= i < |r| ==>
              r[i] == if registry[i].id == id || registry[i].name == id
                      then registry[i].(state := state, heartbeatAt := Some(now)) else registry[i]
  {
    if registry == [] then []
    else
      var b := registry[|registry| - 1];
      Marked(registry[..|registry| - 1], id, state, now) +
      [if b.id == id || b.name == id then b.(state := state, heartbeatAt := Some(now)) else b]
  }

  // The trade event a transition records.
  function TransitionEvent(id: string, status: RunStatus, now: int): P.Event {
    match status
    case RunningNow => P.Event("", now, id, P.TradeCreated, false, P.Pending)
    case PausedNow => P.Event("", now, id, P.BotPaused, false, P.Active)
    case _ => P.Event("", now, id, P.BotStopped, false, P.Over)
  }

  // The current row is read first, the event is recorded (patching the file and the
  // database), and then the row read first is written back over the patch.
  function Transition(w: World, key: string, status: RunStatus, now: int): Option<World> {
    var found := FindBot(w, key);
    if found.None? then None
    else
      var id := found.value.id;
      var current := Listed(w, found.value).(status := status, lastHeartbeat := Some(now));
      var e := TransitionEvent(id, status, now);
      var patched := P.PatchRows(w.file, e);
      var db := if id in w.db then w.db[id := P.RowUpdate(w.db[id], e)] else w.db;
      Some(w.(registry := Marked(w.registry, id, StateOf(status), now), file := Upsert(patched, current), db := db))
  }

  function Restart(w: World, key: string, now: int): Option<World> {
    var stopped := Transition(w, key, P.StoppedNow, now);
    if stopped.None? then None else Transition(stopped.value, key, P.RunningNow, now)
  }

  // Reconciliation writes the listed row back with other columns changed.
  function Reconcile(w: World, id: string): Option<World> {
    var found := ById(w.registry, id);
    if found.None? then None else Some(w.(file := Upsert(w.file, Listed(w, found.value))))
  }

  const STALE: int := 120

  predicate IsStale(row: Row, now: int) {
    row.lastHeartbeat.None? || now - row.lastHeartbeat.value > STALE
  }

  // Supervision of one listed row: write the beat, restart when the last one was stale.
  function Supervise(w: World, row: Row, now: int): (World, bool) {
    if row.status != P.RunningNow then (w, false)
    else
      var beaten := w.(file := Upsert(w.file, row.(lastHeartbeat := Some(now))));
      var restarted := if IsStale(row, now) then Restart(beaten, row.botId, now) else None;
      if restarted.Some? then (restarted.value, true) else (beaten, false)
  }

  // All rows are listed before the first is supervised.
  function SuperviseAll(w: World, rows: seq<Row>, now: int): (World, seq<string>) {
    if rows == [] then (w, [])
    else
      var (before, ids) := SuperviseAll(w, rows[..|rows| - 1], now);
      var (after, restarted) := Supervise(before, rows[|rows| - 1], now);
      (after, if restarted then ids + [rows[|rows| - 1].botId] else ids)
  }

  function ListAll(w: World, registry: seq<Bot>): (r: seq<Row>)
    ensures |r| == |registry| && forall i :: 0 <= i < |r| ==> r[i] == Listed(w, registry[i])
  {
    if registry == [] then [] else ListAll(w, registry[..|registry| - 1]) + [Listed(w, registry[|registry| - 1])]
  }

  function Started(now: int): Control {
    Control(true, Some(now), Some(now))
  }

  function SwitchedOff(c: Control, now: int): Control {
    c.(running := false, heartbeatAt := Some(now))
  }

  // A heartbeat switches the runtime on when it is off.
  function Beating(c: Control, now: int): Control {
    (if c.running then c else Started(now)).(heartbeatAt := Some(now))
  }

  // The control file is written before the bots are listed.
  function Heartbeat(w: World, now: int): (World, seq<string>) {
    var on := w.(control := Beating(w.control, now));
    SuperviseAll(on, ListAll(on, on.registry), now)
  }

  // -------------------------------------------------------- reading after writing

  lemma {:induction false} PersistedWithout(file: seq<Row>, id: string, other: string)
    ensures Persisted(Without(file, id), other) == if other == id then None else Persisted(file, other)
    decreases |file|
  {
    if file != [] {
      PersistedWithout(file[..|file| - 1], id, other);
      var rest, x := Without(file[..|file| - 1], id), file[|file| - 1];
      assert (rest + [x])[..|rest|] == rest;
    }
  }

  lemma PersistedUpsert(file: seq<Row>, row: Row, other: string)
    ensures Persisted(Upsert(file, row), other) == if other == row.botId then Some(row) else Persisted(file, other)
  {
    PersistedWithout(file, row.botId, other);
    assert Upsert(file, row)[..|Upsert(file, row)| - 1] == Without(file, row.botId);
  }

  // Upserting forgets whatever was patched into the bot's rows before.
  lemma {:induction false} UpsertDropsPatch(file: seq<Row>, e: P.Event)
    ensures Without(P.PatchRows(file, e), e.botId) == Without(file, e.botId)
    decreases |file|
  {
    if file != [] {
      var p := file[..|file| - 1];
      UpsertDropsPatch(p, e);
      assert P.PatchRows(file, e)[..|p|] == P.PatchRows(p, e);
    }
  }

  lemma {:induction false} ByIdFinds(registry: seq<Bot>, id: string)
    ensures var r := ById(registry, id);
            if r.Some? then r.value in registry && r.value.id == id else forall b :: b in registry ==> b.id != id
    decreases |registry|
  {
    if registry != [] {
      ByIdFinds(registry[..|registry| - 1], id);
      assert registry == registry[..|registry| - 1] + [registry[|registry| - 1]];
    }
  }

  lemma {:induction false} ByNameFinds(registry: seq<Bot>, from: nat, name: string)
    ensures var r := ByName(registry, from, name);
            r.Some? ==> r.value in registry && r.value.name == name
    decreases |registry| - from
  {
    if from < |registry| {
      ByIdFinds(registry, registry[from].id);
      ByNameFinds(registry, from + 1, name);
    }
  }

  // What a transition writes, with the patch forgotten.
  lemma TransitionWrites(w: World, key: string, status: RunStatus, now: int)
    ensures var found := FindBot(w, key);
            && (Transition(w, key, status, now).Some? <==> found.Some?)
            && (found.Some? ==>
                  && found.value in w.registry && (found.value.id == key || found.value.name == key)
                  && var t := Transition(w, key, status, now).value;
                     var row := Listed(w, found.value).(status := status, lastHeartbeat := Some(now));
                     && t.registry == Marked(w.registry, found.value.id, StateOf(status), now)
                     && t.file == Upsert(w.file, row) && row.botId == found.value.id
                     && t.control == w.control)
  {
    ByIdFinds(w.registry, key);
    ByNameFinds(w.registry, 0, key);
    var found := FindBot(w, key);
    if found.Some? {
      UpsertDropsPatch(w.file, TransitionEvent(found.value.id, status, now));
      PersistedOwnId(w.file, found.value.id);
    }
  }

  lemma {:induction false} PersistedOwnId(file: seq<Row>, id: string)
    ensures Persisted(file, id).Some? ==> Persisted(file, id).value.botId == id
    decreases |file|
  {
    if file != [] { PersistedOwnId(file[..|file| - 1], id); }
  }

  // The listed status of a bot without a persisted row, by its registry state; and the
  // status of a row is never an error unless its bot has failed.
  lemma ListedFromRegistry(w: World, b: Bot)
    requires Persisted(w.file, b.id).None?
    ensures var row := Listed(w, b);
            && row.botId == b.id && row.lastHeartbeat == b.heartbeatAt && row.position == NO_POSITION
            && (row.status == P.RunningNow <==> b.state in {Running, Deployed})
            && (row.status == P.PausedNow <==> b.state == Paused)
            && (row.status == P.ErrorNow <==> b.state == Failed)
            && (row.status == P.StoppedNow <==> b.state in {Draft, Backtested, Stopped})
  {}

  // The event of a transition never says a position is open.  It leaves every position in
  // the file and in the database alone, unless it is a stop, which leaves the trade.
  lemma TransitionEventSays(id: string, status: RunStatus, now: int, p: P.Position)
    requires status != P.ErrorNow
    ensures var e := TransitionEvent(id, status, now);
            && e.botId == id && e.time == now && !e.open
            && (status == P.RunningNow <==> e.kind == P.TradeCreated)
            && (status == P.RunningNow <==> e.lifecycle == P.Pending)
            && (status == P.PausedNow <==> e.kind == P.BotPaused)
            && (status == P.PausedNow <==> e.lifecycle == P.Active)
            && (status == P.StoppedNow <==> e.kind == P.BotStopped)
            && (status == P.StoppedNow <==> e.lifecycle == P.Over)
            && (status != P.StoppedNow ==> P.FilePatch(p, e) == p && P.RowUpdate(p, e) == p)
            && (status == P.StoppedNow ==>
                  P.FilePatch(p, e) == P.RowUpdate(p, e)
                  == P.Position(P.OutOfTrade, p.lastEntry, Some(now), Some(P.BotStopped), Some(now)))
  {}

}
