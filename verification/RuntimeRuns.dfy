// Whole runs of the runtime: the registry and the state file stay consistent,
// prompt heartbeats restart a bot at most once, repeated commands do nothing.
module RuntimeRuns {
  import opened Wrappers
  import opened RuntimeControl
  import P = Projections

  datatype Action = StartBot | StopBot | PauseBot | ResumeBot | RestartBot

  datatype Op =
    | Act(action: Action, key: string, now: int)
    | Beat(at: int)
    | Recon(id: string)
    | Switch(on: bool, time: int)

  function Acted(w: World, action: Action, key: string, now: int): Option<World> {
    match action
    case StartBot | ResumeBot => Transition(w, key, P.RunningNow, now)
    case StopBot => Transition(w, key, P.StoppedNow, now)
    case PauseBot => Transition(w, key, P.PausedNow, now)
    case RestartBot => Restart(w, key, now)
  }

  function OrSame(o: Option<World>, w: World): World {
    if o.Some? then o.value else w
  }

  // One operation; a refused one leaves the world as it is.  The second part is
  // the list of bots the supervisor restarted.
  function Do(w: World, op: Op): (World, seq<string>) {
    match op
    case Act(action, key, now) => (OrSame(Acted(w, action, key, now), w), [])
    case Beat(now) => Heartbeat(w, now)
    case Recon(id) => (OrSame(Reconcile(w, id), w), [])
    case Switch(on, now) => (w.(control := if on then Started(now) else SwitchedOff(w.control, now)), [])
  }

  function Run(w: World, ops: seq<Op>): World {
    if ops == [] then w else Do(Run(w, ops[..|ops| - 1]), ops[|ops| - 1]).0
  }

  function Restarts(w: World, ops: seq<Op>): seq<string> {
    if ops == [] then []
    else Restarts(w, ops[..|ops| - 1]) + Do(Run(w, ops[..|ops| - 1]), ops[|ops| - 1]).1
  }

  // ------------------------------------------------- registry against state file

  ghost predicate UniqueRows(file: seq<Row>) {
    forall i, j :: 0 <= i < j < |file| ==> file[i].botId != file[j].botId
  }

  // Ids are unique and no bot's name is another bot's id.
  ghost predicate SoundRegistry(registry: seq<Bot>) {
    && (forall i, j :: 0 <= i < j < |registry| ==> registry[i].id != registry[j].id)
    && (forall i, j :: 0 <= i < |registry| && 0 <= j < |registry| && registry[i].name == registry[j].id ==> i == j)
  }

  ghost predicate Consistent(w: World) {
    && SoundRegistry(w.registry) && UniqueRows(w.file)
    && StatusesMatch(w.registry, w.file)
  }

  lemma {:induction false} WithoutIsUnique(file: seq<Row>, id: string)
    requires UniqueRows(file)
    ensures UniqueRows(Without(file, id)) && forall r :: r in Without(file, id) ==> r in file && r.botId != id
    decreases |file|
  {
    if file != [] { WithoutIsUnique(file[..|file| - 1], id); }
  }

  lemma UpsertIsUnique(file: seq<Row>, row: Row)
    requires UniqueRows(file)
    ensures UniqueRows(Upsert(file, row))
  {
    WithoutIsUnique(file, row.botId);
    var rest := Without(file, row.botId);
    assert forall i :: 0 <= i < |rest| ==> rest[i] in rest;
  }

  // The same bots, in the same order, showing the same statuses.
  ghost predicate SameStatuses(a: World, b: World) {
    && |a.registry| == |b.registry|
    && forall i :: 0 <= i < |a.registry| ==>
         a.registry[i].id == b.registry[i].id && a.registry[i].name == b.registry[i].name
         && StatusOf(a.registry[i].state) == StatusOf(b.registry[i].state)
  }

  lemma ListedStatus(w: World, b: Bot)
    requires Consistent(w) && b in w.registry
    ensures Listed(w, b).status == StatusOf(b.state) && Listed(w, b).botId == b.id
  {
    PersistedOwnId(w.file, b.id);
  }

  // In a sound registry exactly one bot is marked, and the registry stays sound.
  lemma MarkedInSound(registry: seq<Bot>, k: nat, state: BotState, now: int)
    requires SoundRegistry(registry) && k < |registry|
    ensures var r := registry[k := registry[k].(state := state, heartbeatAt := Some(now))];
            Marked(registry, registry[k].id, state, now) == r && SoundRegistry(r)
  {
    var r := registry[k := registry[k].(state := state, heartbeatAt := Some(now))];
    assert forall i :: 0 <= i < |registry| ==> r[i].id == registry[i].id && r[i].name == registry[i].name;
  }

  ghost predicate StatusesMatch(registry: seq<Bot>, file: seq<Row>) {
    forall b :: b in registry && Persisted(file, b.id).Some? ==> Persisted(file, b.id).value.status == StatusOf(b.state)
  }

  // Replacing one bot and upserting a row with its new status.
  lemma StatusesStayMatched(registry: seq<Bot>, file: seq<Row>, k: nat, bot: Bot, row: Row)
    requires SoundRegistry(registry) && StatusesMatch(registry, file) && k < |registry|
    requires bot.id == registry[k].id && row.botId == bot.id && row.status == StatusOf(bot.state)
    ensures StatusesMatch(registry[k := bot], Upsert(file, row))
  {
    hide Upsert, Persisted, StatusOf;
    forall b | b in registry[k := bot] && Persisted(Upsert(file, row), b.id).Some?
      ensures Persisted(Upsert(file, row), b.id).value.status == StatusOf(b.state)
    {
      PersistedUpsert(file, row, b.id);
      var i :| 0 <= i < |registry| && registry[k := bot][i] == b;
      if i != k { assert registry[i] == b; }
    }
  }

  // A transition keeps consistency, gives the found bot the new status and leaves
  // every other bot alone.
  lemma TransitionKeepsConsistent(w: World, key: string, status: RunStatus, now: int, k: nat)
    requires Consistent(w) && k < |w.registry| && FindBot(w, key) == Some(w.registry[k]) && status != P.ErrorNow
    ensures var t := Transition(w, key, status, now);
            && t.Some? && Consistent(t.value)
            && t.value.registry == w.registry[k := w.registry[k].(state := StateOf(status), heartbeatAt := Some(now))]
  {
    hide Transition, FindBot, Listed, Upsert, Marked, SoundRegistry, UniqueRows, StatusesMatch;
    TransitionWrites(w, key, status, now);
    var row := Listed(w, w.registry[k]).(status := status, lastHeartbeat := Some(now));
    var bot := w.registry[k].(state := StateOf(status), heartbeatAt := Some(now));
    UpsertIsUnique(w.file, row);
    MarkedInSound(w.registry, k, StateOf(status), now);
    StatusesStayMatched(w.registry, w.file, k, bot, row);
  }

  // Stopping and starting a bot found twice.
  lemma RestartKeepsConsistent(w: World, key: string, now: int)
    requires Consistent(w)
    ensures Consistent(OrSame(Restart(w, key, now), w))
  {
    hide Transition, Consistent, FindBot;
    TransitionWrites(w, key, P.StoppedNow, now);
    if FindBot(w, key).Some? {
      var k := FoundInRegistry(w, key);
      TransitionKeepsConsistent(w, key, P.StoppedNow, now, k);
      var stopped := Transition(w, key, P.StoppedNow, now).value;
      TransitionWrites(stopped, key, P.RunningNow, now);
      if FindBot(stopped, key).Some? {
        var l := FoundInRegistry(stopped, key);
        TransitionKeepsConsistent(stopped, key, P.RunningNow, now, l);
      }
    }
  }

  lemma FoundInRegistry(w: World, key: string) returns (k: nat)
    requires FindBot(w, key).Some?
    ensures k < |w.registry| && w.registry[k] == FindBot(w, key).value
  {
    ByIdFinds(w.registry, key);
    ByNameFinds(w.registry, 0, key);
    k :| 0 <= k < |w.registry| && w.registry[k] == FindBot(w, key).value;
  }

  // In a sound registry an id finds its own bot.
  lemma FindsOwnId(w: World, k: nat)
    requires SoundRegistry(w.registry) && k < |w.registry|
    ensures FindBot(w, w.registry[k].id) == Some(w.registry[k])
  {
    ByIdFinds(w.registry, w.registry[k].id);
  }

  lemma ActKeepsConsistent(w: World, action: Action, key: string, now: int)
    requires Consistent(w)
    ensures Consistent(OrSame(Acted(w, action, key, now), w))
  {
    hide Transition, Consistent, FindBot, Restart;
    if action == RestartBot {
      RestartKeepsConsistent(w, key, now);
    } else {
      var status := if action == StopBot then P.StoppedNow else if action == PauseBot then P.PausedNow
          else P.RunningNow;
      TransitionWrites(w, key, status, now);
      if FindBot(w, key).Some? {
        var k := FoundInRegistry(w, key);
        TransitionKeepsConsistent(w, key, status, now, k);
      }
    }
  }

  // Writing back a row with the bot's own status.
  lemma UpsertKeepsConsistent(w: World, row: Row, k: nat)
    requires Consistent(w) && k < |w.registry| && row.botId == w.registry[k].id
             && row.status == StatusOf(w.registry[k].state)
    ensures Consistent(w.(file := Upsert(w.file, row)))
  {
    hide Upsert, UniqueRows, SoundRegistry, StatusesMatch;
    UpsertIsUnique(w.file, row);
    StatusesStayMatched(w.registry, w.file, k, w.registry[k], row);
    assert w.registry[k := w.registry[k]] == w.registry;
  }

  lemma ReconcileKeepsConsistent(w: World, id: string)
    requires Consistent(w)
    ensures Consistent(OrSame(Reconcile(w, id), w))
  {
    ByIdFinds(w.registry, id);
    if ById(w.registry, id).Some? {
      var k :| 0 <= k < |w.registry| && w.registry[k] == ById(w.registry, id).value;
      ListedStatus(w, w.registry[k]);
      UpsertKeepsConsistent(w, Listed(w, w.registry[k]), k);
    }
  }

  // A restart by a bot's own id, in a consistent world.
  lemma OwnRestart(w: World, k: nat, now: int)
    requires Consistent(w) && k < |w.registry|
    ensures var t := Restart(w, w.registry[k].id, now);
            && t.Some? && Consistent(t.value)
            && t.value.registry == w.registry[k := w.registry[k].(state := Running, heartbeatAt := Some(now))]
  {
    hide Transition, Consistent, FindBot;
    SoundOf(w);
    FindsOwnId(w, k);
    TransitionKeepsConsistent(w, w.registry[k].id, P.StoppedNow, now, k);
    var stopped := Transition(w, w.registry[k].id, P.StoppedNow, now).value;
    SoundOf(stopped);
    FindsOwnId(stopped, k);
    TransitionKeepsConsistent(stopped, w.registry[k].id, P.RunningNow, now, k);
  }

  // Supervising a row that shows its bot's status.
  lemma SuperviseRow(w: World, row: Row, k: nat, now: int)
    requires Consistent(w) && k < |w.registry| && row.botId == w.registry[k].id
             && row.status == StatusOf(w.registry[k].state)
    ensures var t := Supervise(w, row, now).0;
            && Consistent(t)
            && (t.registry == w.registry ||
                (row.status == P.RunningNow
                    && t.registry == w.registry[k := w.registry[k].(state := Running, heartbeatAt := Some(now))]))
  {
    hide Restart, Upsert, Consistent, IsStale;
    if row.status == P.RunningNow {
      var beat := row.(lastHeartbeat := Some(now));
      UpsertKeepsConsistent(w, beat, k);
      OwnRestart(w.(file := Upsert(w.file, beat)), k, now);
    }
  }

  lemma SuperviseKeepsConsistent(w0: World, w: World, k: nat, now: int)
    requires Consistent(w0) && Consistent(w) && SameStatuses(w0, w) && k < |w0.registry|
    ensures var t := Supervise(w, Listed(w0, w0.registry[k]), now).0;
            Consistent(t) && SameStatuses(w0, t)
  {
    hide Supervise, Listed, Consistent;
    ListedStatus(w0, w0.registry[k]);
    SuperviseRow(w, Listed(w0, w0.registry[k]), k, now);
  }

  lemma SoundOf(w: World)
    requires Consistent(w)
    ensures SoundRegistry(w.registry)
  {}

  lemma {:induction false} HeartbeatKeepsConsistent(w: World, n: nat, now: int)
    requires Consistent(w) && n <= |w.registry|
    ensures var t := SuperviseAll(w, ListAll(w, w.registry)[..n], now).0;
            Consistent(t) && SameStatuses(w, t)
  {
    hide Supervise, Consistent, Listed;
    var rows := ListAll(w, w.registry);
    if n > 0 {
      HeartbeatKeepsConsistent(w, n - 1, now);
      assert rows[..n][..n - 1] == rows[..n - 1];
      SuperviseKeepsConsistent(w, SuperviseAll(w, rows[..n - 1], now).0, n - 1, now);
    }
  }

  // After any operations the state file holds at most one row per bot, and every
  // row shows the status of that bot's registry state.
  lemma {:induction false} EveryRunIsConsistent(w: World, ops: seq<Op>)
    requires Consistent(w)
    ensures Consistent(Run(w, ops))
    decreases |ops|
  {
    hide Consistent, Acted, Reconcile, SuperviseAll;
    if ops != [] {
      var before := Run(w, ops[..|ops| - 1]);
      EveryRunIsConsistent(w, ops[..|ops| - 1]);
      match ops[|ops| - 1]
      case Act(action, key, now) => ActKeepsConsistent(before, action, key, now);
      case Recon(id) => ReconcileKeepsConsistent(before, id);
      case Switch(on, now) => ControlIsApart(before, Do(before, ops[|ops| - 1]).0.control);
      case Beat(now) =>
        var on := before.(control := Beating(before.control, now));
        ControlIsApart(before, on.control);
        var rows := ListAll(on, on.registry);
        assert rows[..|on.registry|] == rows;
        HeartbeatKeepsConsistent(on, |on.registry|, now);
    }
  }

  lemma ControlIsApart(w: World, control: Control)
    requires Consistent(w)
    ensures Consistent(w.(control := control))
  {}

  // ------------------------------------------- which registries stay consistent

  // The same bots by id and name, whatever their states.
  ghost predicate Named(w: World, registry: seq<Bot>) {
    |w.registry| == |registry|
    && forall i :: 0 <= i < |registry| ==> w.registry[i].id == registry[i].id && w.registry[i].name == registry[i].name
  }

  ghost predicate Matched(w: World) {
    UniqueRows(w.file) && StatusesMatch(w.registry, w.file)
  }

  // The bots of a registry, all stopped but one.
  function OnlyRunning(registry: seq<Bot>, k: int): (r: seq<Bot>)
    ensures |r| == |registry|
    ensures forall i :: 0 <= i < |r| ==> r[i] == registry[i].(state := if i == k then Running else Stopped)
  {
    seq(|registry|, i requires 0 <= i < |registry| => registry[i].(state := if i == k then Running else Stopped))
  }

  lemma {:induction false} LastWithId(registry: seq<Bot>, id: string, k: nat)
    requires k < |registry| && registry[k].id == id && forall i :: k < i < |registry| ==> registry[i].id != id
    ensures ById(registry, id) == Some(registry[k])
    decreases |registry|
  {
    if k < |registry| - 1 { LastWithId(registry[..|registry| - 1], id, k); }
  }

  lemma {:induction false} HasLast(registry: seq<Bot>, id: string, j: nat) returns (k: nat)
    requires j < |registry| && registry[j].id == id
    ensures j <= k < |registry| && registry[k].id == id && forall i :: k < i < |registry| ==> registry[i].id != id
    decreases |registry| - j
  {
    if i :| j < i < |registry| && registry[i].id == id {
      k := HasLast(registry, id, i);
    } else {
      k := j;
    }
  }

  const OFF := Control(false, None, None)

  // Two bots share an id: reconciling it shows the last one's status for both.
  lemma RepeatedIdBreaks(registry: seq<Bot>, i: nat, j: nat) returns (w: World, ops: seq<Op>)
    requires i < j < |registry| && registry[i].id == registry[j].id
    ensures Named(w, registry) && Matched(w) && !Matched(Run(w, ops))
  {
    hide UniqueRows;
    var id := registry[i].id;
    var k := HasLast(registry, id, j);
    w := World(OnlyRunning(registry, k), [], map[], OFF);
    ops := [Recon(id)];
    LastWithId(w.registry, id, k);
    RunOne(w, ops[0]);
    var t := Run(w, ops);
    var row := Listed(w, w.registry[k]);
    PersistedUpsert(w.file, row, id);
    assert t.file == Upsert(w.file, row) && t.registry[i] in t.registry;
    assert UniqueRows(w.file) by { NoRowsAreUnique(); }
  }

  lemma NoRowsAreUnique()
    ensures UniqueRows([]) && forall row: Row :: UniqueRows([row])
  {}

  // All bots stopped, and one row, of the i-th bot.
  function OneStopped(registry: seq<Bot>, i: nat): World
    requires i < |registry|
  {
    World(OnlyRunning(registry, -1), [P.FileRow(registry[i].id, P.StoppedNow, None, NO_POSITION)], map[], OFF)
  }

  lemma OneStoppedMatches(registry: seq<Bot>, i: nat)
    requires i < |registry|
    ensures Named(OneStopped(registry, i), registry) && Matched(OneStopped(registry, i))
    ensures Persisted(OneStopped(registry, i).file, registry[i].id).Some?
  {
    hide UniqueRows;
    var w := OneStopped(registry, i);
    NoRowsAreUnique();
    OneRow(w.file[0], registry[i].id);
    forall b | b in w.registry && Persisted(w.file, b.id).Some?
      ensures Persisted(w.file, b.id).value.status == StatusOf(b.state) {
      OneRow(w.file[0], b.id);
    }
  }

  // One bot is named like another's id: starting that one drags it along in the
  // registry but not in the file.
  lemma AliasBreaks(registry: seq<Bot>, i: nat, j: nat) returns (w: World, ops: seq<Op>)
    requires i < |registry| && j < |registry| && registry[i].name == registry[j].id && registry[i].id != registry[j].id
    ensures Named(w, registry) && Matched(w) && !Matched(Run(w, ops))
  {
    hide UniqueRows, Transition, Persisted;
    w := OneStopped(registry, i);
    var key := registry[j].id;
    ops := [Act(StartBot, key, 0)];
    OneStoppedMatches(registry, i);
    ByIdFinds(w.registry, key);
    assert w.registry[j] in w.registry;
    StatusesMatchIffNoAliasMoves(w, key, P.RunningNow, 0);
    assert w.registry[i] in w.registry && IsAlias(w.registry[i], key) && StatusOf(w.registry[i].state) != P.RunningNow;
    hide StatusesMatch, FindBot;
    RunOne(w, ops[0]);
  }

  lemma RunOne(w: World, op: Op)
    ensures Run(w, [op]) == Do(w, op).0
  {
    assert [op][..0] == [] && Run(w, [op][..0]) == w;
  }

  lemma OneRow(row: Row, id: string)
    ensures Persisted([row], id) == if row.botId == id then Some(row) else None
  {
    assert [row][..0] == [] && Persisted([row][..0], id) == None;
  }

  // A registry stays consistent with the state file over every run, from every
  // consistent start, exactly when its ids are unique and no bot is named like another
  // bot's id.
  lemma ConsistentIffSound(registry: seq<Bot>)
    ensures (forall w, ops :: Named(w, registry) && Matched(w) ==> Matched(Run(w, ops))) <==> SoundRegistry(registry)
  {
    hide Run, Matched, StatusesMatch, UniqueRows;
    if SoundRegistry(registry) {
      forall w, ops | Named(w, registry) && Matched(w) ensures Matched(Run(w, ops)) {
        MatchedIsConsistent(w);
        EveryRunIsConsistent(w, ops);
        MatchedIsConsistent(Run(w, ops));
      }
    } else if i, j :| 0 <= i < j < |registry| && registry[i].id == registry[j].id {
      var w, ops := RepeatedIdBreaks(registry, i, j);
    } else {
      var i, j :| 0 <= i < |registry| && 0 <= j < |registry| && registry[i].name == registry[j].id && i != j;
      assert registry[i].id != registry[j].id;
      var w, ops := AliasBreaks(registry, i, j);
    }
  }

  lemma MatchedIsConsistent(w: World)
    ensures Consistent(w) <==> SoundRegistry(w.registry) && Matched(w)
  {}

  // ---------------------------------------------- one row per bot, in any registry

  lemma TransitionKeepsUnique(w: World, key: string, status: RunStatus, now: int)
    requires UniqueRows(w.file)
    ensures UniqueRows(OrSame(Transition(w, key, status, now), w).file)
  {
    hide Transition, UniqueRows;
    TransitionWrites(w, key, status, now);
    if FindBot(w, key).Some? {
      UpsertIsUnique(w.file, Listed(w, FindBot(w, key).value).(status := status, lastHeartbeat := Some(now)));
    }
  }

  lemma RestartKeepsUnique(w: World, key: string, now: int)
    requires UniqueRows(w.file)
    ensures UniqueRows(OrSame(Restart(w, key, now), w).file)
  {
    hide Transition, UniqueRows;
    TransitionKeepsUnique(w, key, P.StoppedNow, now);
    TransitionKeepsUnique(OrSame(Transition(w, key, P.StoppedNow, now), w), key, P.RunningNow, now);
  }

  lemma {:induction false} HeartbeatKeepsUnique(w: World, rows: seq<Row>, now: int)
    requires UniqueRows(w.file)
    ensures UniqueRows(SuperviseAll(w, rows, now).0.file)
    decreases |rows|
  {
    hide UniqueRows, Restart, Upsert;
    if rows != [] {
      HeartbeatKeepsUnique(w, rows[..|rows| - 1], now);
      var v, row := SuperviseAll(w, rows[..|rows| - 1], now).0, rows[|rows| - 1];
      var beat := row.(lastHeartbeat := Some(now));
      UpsertIsUnique(v.file, beat);
      RestartKeepsUnique(v.(file := Upsert(v.file, beat)), row.botId, now);
    }
  }

  // Whatever the registry looks like, no run ever leaves two rows of one bot.
  lemma {:induction false} EveryRunHasOneRowPerBot(w: World, ops: seq<Op>)
    requires UniqueRows(w.file)
    ensures UniqueRows(Run(w, ops).file)
    decreases |ops|
  {
    hide UniqueRows, Transition, Restart, SuperviseAll, Upsert, Listed;
    if ops != [] {
      var v := Run(w, ops[..|ops| - 1]);
      EveryRunHasOneRowPerBot(w, ops[..|ops| - 1]);
      match ops[|ops| - 1]
      case Act(action, key, now) =>
        RestartKeepsUnique(v, key, now);
        TransitionKeepsUnique(v, key, P.RunningNow, now);
        TransitionKeepsUnique(v, key, P.StoppedNow, now);
        TransitionKeepsUnique(v, key, P.PausedNow, now);
      case Recon(id) =>
        if ById(v.registry, id).Some? { UpsertIsUnique(v.file, Listed(v, ById(v.registry, id).value)); }
      case Switch(_, _) =>
      case Beat(now) =>
        var on := v.(control := Beating(v.control, now));
        HeartbeatKeepsUnique(on, ListAll(on, on.registry), now);
    }
  }

  // A bot that is named like another bot's id.
  predicate IsAlias(b: Bot, id: string) {
    b.id != id && b.name == id
  }

  // Without the condition on names: the registry also marks the bots whose name is
  // the moved bot's id, the state file does not.  The statuses still match exactly
  // when every such bot with a row already had the new status.
  lemma StatusesMatchIffNoAliasMoves(w: World, key: string, status: RunStatus, now: int)
    requires StatusesMatch(w.registry, w.file) && FindBot(w, key).Some? && status != P.ErrorNow
    ensures var t := Transition(w, key, status, now);
            var id := FindBot(w, key).value.id;
            && t.Some?
            && (StatusesMatch(t.value.registry, t.value.file) <==>
                forall b :: b in w.registry && IsAlias(b, id) && Persisted(w.file, b.id).Some? ==>
                  StatusOf(b.state) == status)
  {
    hide Transition, FindBot, Listed, Upsert, Persisted;
    TransitionWrites(w, key, status, now);
    var t := Transition(w, key, status, now).value;
    var id := FindBot(w, key).value.id;
    var row := Listed(w, FindBot(w, key).value).(status := status, lastHeartbeat := Some(now));
    forall b: Bot ensures Persisted(t.file, b.id) == if b.id == id then Some(row) else Persisted(w.file, b.id) {
      PersistedUpsert(w.file, row, b.id);
    }
    AliasesDecide(w.registry, w.file, t.registry, t.file, id, row);
  }

  lemma AliasesDecide(registry: seq<Bot>, file: seq<Row>, after: seq<Bot>, fileAfter: seq<Row>, id: string, row: Row)
    requires StatusesMatch(registry, file) && |after| == |registry|
    requires forall b: Bot :: Persisted(fileAfter, b.id) == if b.id == id then Some(row) else Persisted(file, b.id)
    requires forall i :: 0 <= i < |registry| ==>
               after[i].id == registry[i].id
               && StatusOf(after[i].state) == if registry[i].id == id || registry[i].name == id then row.status
                    else StatusOf(registry[i].state)
    ensures StatusesMatch(after, fileAfter) <==>
            forall b :: b in registry && IsAlias(b, id) && Persisted(file, b.id).Some? ==>
              StatusOf(b.state) == row.status
  {
    hide Persisted, StatusOf;
    assert forall i :: 0 <= i < |after| ==> after[i] in after && registry[i] in registry;
    if StatusesMatch(after, fileAfter) {
      forall b | b in registry && IsAlias(b, id) && Persisted(file, b.id).Some?
        ensures StatusOf(b.state) == row.status
      {
        var i :| 0 <= i < |registry| && registry[i] == b;
        assert after[i] in after;
      }
    }
  }

  // ------------------------------------------------------- supervisor restarts

  // A listed bot that is not running, or has beaten at t or later.
  predicate Fresh(row: Row, t: int) {
    row.status == P.RunningNow ==> row.lastHeartbeat.Some? && row.lastHeartbeat.value >= t
  }

  ghost predicate Alive(w: World, t: int) {
    forall i :: 0 <= i < |w.registry| ==> Fresh(Listed(w, w.registry[i]), t)
  }

  ghost predicate UniqueIds(w: World) {
    forall i, j :: 0 <= i < j < |w.registry| ==> w.registry[i].id != w.registry[j].id
  }

  // The same ids in the same order.
  ghost predicate SameIds(a: World, b: World) {
    |a.registry| == |b.registry| && forall i :: 0 <= i < |a.registry| ==> a.registry[i].id == b.registry[i].id
  }

  // Between a and b every listed row stayed as it was or was stamped with the present.
  ghost predicate Stamped(a: World, b: World, now: int) {
    && SameIds(a, b)
    && forall i :: 0 <= i < |b.registry| ==>
         Listed(b, b.registry[i]) == Listed(a, a.registry[i]) || Listed(b, b.registry[i]).lastHeartbeat == Some(now)
  }

  lemma StampedKeepsAlive(a: World, b: World, now: int, t: int)
    requires Alive(a, t) && Stamped(a, b, now) && t <= now
    ensures Alive(b, t)
  {
    hide Listed;
    assert forall i :: 0 <= i < |b.registry| ==> Fresh(Listed(b, b.registry[i]), t);
  }

  lemma StampedTwice(a: World, b: World, c: World, now: int)
    requires Stamped(a, b, now) && Stamped(b, c, now)
    ensures Stamped(a, c, now)
  {
    hide Listed;
  }

  lemma UpsertStamps(w: World, row: Row, now: int)
    requires row.lastHeartbeat == Some(now)
    ensures Stamped(w, w.(file := Upsert(w.file, row)), now)
  {
    hide Upsert, Persisted;
    var t := w.(file := Upsert(w.file, row));
    forall i | 0 <= i < |t.registry|
      ensures Listed(t, t.registry[i]) == Listed(w, w.registry[i])
              || Listed(t, t.registry[i]).lastHeartbeat == Some(now)
    {
      PersistedUpsert(w.file, row, t.registry[i].id);
    }
  }

  lemma TransitionStamps(w: World, key: string, status: RunStatus, now: int)
    requires Transition(w, key, status, now).Some?
    ensures Stamped(w, Transition(w, key, status, now).value, now)
  {
    hide Transition, FindBot, Upsert, Persisted;
    TransitionWrites(w, key, status, now);
    var t := Transition(w, key, status, now).value;
    var found := FindBot(w, key).value;
    var row := Listed(w, found).(status := status, lastHeartbeat := Some(now));
    forall i | 0 <= i < |t.registry|
      ensures Listed(t, t.registry[i]) == Listed(w, w.registry[i])
              || Listed(t, t.registry[i]).lastHeartbeat == Some(now)
    {
      PersistedUpsert(w.file, row, w.registry[i].id);
    }
  }

  lemma RestartStamps(w: World, key: string, now: int)
    ensures Restart(w, key, now).Some? ==> Stamped(w, Restart(w, key, now).value, now)
  {
    hide Transition, Stamped;
    if Restart(w, key, now).Some? {
      var stopped := Transition(w, key, P.StoppedNow, now).value;
      TransitionStamps(w, key, P.StoppedNow, now);
      TransitionStamps(stopped, key, P.RunningNow, now);
      StampedTwice(w, stopped, Restart(w, key, now).value, now);
    }
  }

  lemma ActStamps(w: World, action: Action, key: string, now: int)
    ensures Stamped(w, OrSame(Acted(w, action, key, now), w), now)
  {
    hide Transition, Restart;
    RestartStamps(w, key, now);
    if Acted(w, action, key, now).Some? && action != RestartBot {
      var status := if action == StopBot then P.StoppedNow else if action == PauseBot then P.PausedNow
          else P.RunningNow;
      TransitionStamps(w, key, status, now);
    }
  }

  // Reconciliation shows a listed row to every bot of its id.
  lemma ReconcileKeepsAlive(w: World, id: string, t: int)
    requires Alive(w, t)
    ensures Alive(OrSame(Reconcile(w, id), w), t) && SameIds(w, OrSame(Reconcile(w, id), w))
  {
    hide Upsert;
    ByIdFinds(w.registry, id);
    if ById(w.registry, id).Some? {
      var found := ById(w.registry, id).value;
      var row := Listed(w, found);
      PersistedOwnId(w.file, id);
      var v := Reconcile(w, id).value;
      hide Persisted, ById, Reconcile;
      assert v == w.(file := Upsert(w.file, row)) && Fresh(row, t);
      forall i | 0 <= i < |v.registry| ensures Fresh(Listed(v, v.registry[i]), t) {
        PersistedUpsert(w.file, row, v.registry[i].id);
        assert Fresh(Listed(w, w.registry[i]), t);
      }
    }
  }

  // Supervising the row of the k-th bot.
  lemma SuperviseStamps(w: World, row: Row, k: nat, now: int)
    requires k < |w.registry| && row.botId == w.registry[k].id
    ensures var (t, restarted) := Supervise(w, row, now);
            && Stamped(w, t, now)
            && (restarted <==> IsSilent(row, now))
            && (row.status == P.RunningNow ==> Listed(t, t.registry[k]).lastHeartbeat == Some(now))
  {
    hide Restart, Upsert, Persisted, FindBot;
    if row.status == P.RunningNow {
      var beat := row.(lastHeartbeat := Some(now));
      var beaten := w.(file := Upsert(w.file, beat));
      UpsertStamps(w, beat, now);
      PersistedUpsert(w.file, beat, row.botId);
      assert Listed(beaten, beaten.registry[k]) == beat;
      RestartStamps(beaten, row.botId, now);
      RestartsItself(beaten, k, now);
      if IsStale(row, now) {
        StampedTwice(w, beaten, Restart(beaten, row.botId, now).value, now);
      }
    }
  }

  // A registered id always finds a bot, so its restart is not refused.
  lemma RestartsItself(w: World, k: nat, now: int)
    requires k < |w.registry|
    ensures Restart(w, w.registry[k].id, now).Some?
  {
    hide Transition;
    var id := w.registry[k].id;
    ByIdFinds(w.registry, id);
    TransitionWrites(w, id, P.StoppedNow, now);
    TransitionStamps(w, id, P.StoppedNow, now);
    var stopped := Transition(w, id, P.StoppedNow, now).value;
    ByIdFinds(stopped.registry, id);
    assert stopped.registry[k].id == id;
    TransitionWrites(stopped, id, P.RunningNow, now);
  }

  // A row is silent when it runs and has no beat of the last 120 seconds.
  predicate IsSilent(row: Row, now: int) {
    row.status == P.RunningNow && (row.lastHeartbeat.None? || row.lastHeartbeat.value + 120 < now)
  }

  // The ids of the rows a supervisor finds running but silent.
  function Silent(rows: seq<Row>, now: int): seq<string> {
    if rows == [] then []
    else
      var row := rows[|rows| - 1];
      Silent(rows[..|rows| - 1], now) + if IsSilent(row, now) then [row.botId] else []
  }

  lemma {:induction false} SuperviseAllStamps(w: World, n: nat, now: int)
    requires n <= |w.registry|
    ensures var rows := ListAll(w, w.registry)[..n];
            var (t, restarted) := SuperviseAll(w, rows, now);
            && Stamped(w, t, now) && restarted == Silent(rows, now)
            && forall i :: 0 <= i < n ==> Fresh(Listed(t, t.registry[i]), now)
  {
    hide Supervise, Listed, IsStale;
    if n > 0 {
      SuperviseAllStamps(w, n - 1, now);
      var rows := ListAll(w, w.registry)[..n];
      assert rows[..n - 1] == ListAll(w, w.registry)[..n - 1];
      var before := SuperviseAll(w, rows[..n - 1], now).0;
      ListedId(w, w.registry[n - 1]);
      SuperviseStamps(before, rows[n - 1], n - 1, now);
      hide ListAll, SuperviseAll, Silent;
      NextIsFresh(w, before, Supervise(before, rows[n - 1], now).0, n - 1, now);
    }
  }

  // After one more row is supervised one more bot is fresh.
  lemma NextIsFresh(w: World, before: World, after: World, n: nat, now: int)
    requires n < |w.registry| && Stamped(w, before, now) && Stamped(before, after, now)
    requires forall i :: 0 <= i < n ==> Fresh(Listed(before, before.registry[i]), now)
    requires Listed(w, w.registry[n]).status == P.RunningNow ==>
             Listed(after, after.registry[n]).lastHeartbeat == Some(now)
    ensures Stamped(w, after, now) && forall i :: 0 <= i < n + 1 ==> Fresh(Listed(after, after.registry[i]), now)
  {
    hide Listed;
    StampedTwice(w, before, after, now);
  }

  lemma ListedId(w: World, b: Bot)
    ensures Listed(w, b).botId == b.id
  {
    PersistedOwnId(w.file, b.id);
  }

  lemma ControlIsNotListed(w: World, control: Control)
    ensures var c := w.(control := control);
            SameIds(w, c) && ListAll(c, c.registry) == ListAll(w, w.registry)
            && forall i :: 0 <= i < |w.registry| ==> Listed(c, c.registry[i]) == Listed(w, w.registry[i])
  {}

  // A heartbeat restarts exactly the bots listed as running whose last beat is more
  // than two minutes old, in registry order, and afterwards no running bot is silent.
  lemma HeartbeatRestartsTheSilent(w: World, now: int)
    ensures var (t, restarted) := Heartbeat(w, now);
            && Stamped(w, t, now) && Alive(t, now) && restarted == Silent(ListAll(w, w.registry), now)
  {
    hide Listed, SuperviseAll, Silent;
    var on := w.(control := Beating(w.control, now));
    ControlIsNotListed(w, on.control);
    var rows := ListAll(on, on.registry);
    assert rows[..|on.registry|] == rows;
    SuperviseAllStamps(on, |on.registry|, now);
    StampedTwice(w, on, Heartbeat(w, now).0, now);
  }

  lemma SuperviseKeepsControl(w: World, row: Row, now: int)
    ensures Supervise(w, row, now).0.control == w.control
  {
    hide Transition, Upsert, IsStale;
    if row.status == P.RunningNow {
      var beaten := w.(file := Upsert(w.file, row.(lastHeartbeat := Some(now))));
      TransitionWrites(beaten, row.botId, P.StoppedNow, now);
      if FindBot(beaten, row.botId).Some? {
        TransitionWrites(Transition(beaten, row.botId, P.StoppedNow, now).value, row.botId, P.RunningNow, now);
      }
    }
  }

  lemma {:induction false} SuperviseAllKeepsControl(w: World, rows: seq<Row>, now: int)
    ensures SuperviseAll(w, rows, now).0.control == w.control
    decreases |rows|
  {
    hide Supervise;
    if rows != [] {
      SuperviseAllKeepsControl(w, rows[..|rows| - 1], now);
      SuperviseKeepsControl(SuperviseAll(w, rows[..|rows| - 1], now).0, rows[|rows| - 1], now);
    }
  }

  // What switches the runtime on: a heartbeat or a start.
  predicate TurnsOn(op: Op) {
    op.Beat? || (op.Switch? && op.on)
  }

  lemma TransitionKeepsControl(w: World, key: string, status: RunStatus, now: int)
    ensures OrSame(Transition(w, key, status, now), w).control == w.control
  {
    hide Transition, FindBot, Upsert, Listed, Marked;
    TransitionWrites(w, key, status, now);
  }

  lemma ActKeepsControl(w: World, action: Action, key: string, now: int)
    ensures OrSame(Acted(w, action, key, now), w).control == w.control
  {
    hide Transition;
    TransitionKeepsControl(w, key, P.RunningNow, now);
    TransitionKeepsControl(w, key, P.PausedNow, now);
    TransitionKeepsControl(w, key, P.StoppedNow, now);
    TransitionKeepsControl(OrSame(Transition(w, key, P.StoppedNow, now), w), key, P.RunningNow, now);
  }

  // A heartbeat switches a stopped runtime on, and it then counts as started there.
  lemma HeartbeatRevivesRuntime(w: World, now: int)
    ensures var t := Heartbeat(w, now).0;
            && t.control.running && t.control.heartbeatAt == Some(now)
            && t.control.startedAt == if w.control.running then w.control.startedAt else Some(now)
  {
    hide SuperviseAll;
    var on := w.(control := Beating(w.control, now));
    SuperviseAllKeepsControl(on, ListAll(on, on.registry), now);
  }

  // One operation turns a stopped runtime on exactly when it is a heartbeat or a start.
  lemma TurnsOnIff(w: World, op: Op)
    requires !w.control.running
    ensures Do(w, op).0.control.running <==> TurnsOn(op)
  {
    hide Acted, Heartbeat, Upsert, Listed;
    match op
    case Act(action, key, now) => ActKeepsControl(w, action, key, now);
    case Beat(now) => HeartbeatRevivesRuntime(w, now);
    case _ =>
  }

  lemma RunStep(w: World, ops: seq<Op>, n: nat)
    requires n < |ops|
    ensures Run(w, ops[..n + 1]) == Do(Run(w, ops[..n]), ops[n]).0
  {
    assert ops[..n + 1][..n] == ops[..n];
  }

  lemma {:induction false} StaysOff(w: World, ops: seq<Op>, n: nat)
    requires !w.control.running && n <= |ops| && forall i :: 0 <= i < n ==> !TurnsOn(ops[i])
    ensures !Run(w, ops[..n]).control.running
  {
    hide Do, TurnsOn;
    if n > 0 {
      StaysOff(w, ops, n - 1);
      RunStep(w, ops, n - 1);
      TurnsOnIff(Run(w, ops[..n - 1]), ops[n - 1]);
    }
  }

  // A stopped runtime stays stopped throughout a run exactly when the run holds no
  // heartbeat and no start.
  lemma StopLastsIff(w: World, ops: seq<Op>)
    requires !w.control.running
    ensures (forall n :: 0 <= n <= |ops| ==> !Run(w, ops[..n]).control.running) <==>
            (forall n :: 0 <= n < |ops| ==> !TurnsOn(ops[n]))
  {
    hide Do, Run, TurnsOn;
    if forall n :: 0 <= n <= |ops| ==> !Run(w, ops[..n]).control.running {
      forall n | 0 <= n < |ops| ensures !TurnsOn(ops[n]) {
        RunStep(w, ops, n);
        TurnsOnIff(Run(w, ops[..n]), ops[n]);
      }
    }
    if forall n :: 0 <= n < |ops| ==> !TurnsOn(ops[n]) {
      forall n | 0 <= n <= |ops| ensures !Run(w, ops[..n]).control.running {
        StaysOff(w, ops, n);
      }
    }
  }

  lemma {:induction false} AliveIsNotSilent(w: World, n: nat, t: int, now: int)
    requires n <= |w.registry| && Alive(w, t) && now - t <= STALE
    ensures Silent(ListAll(w, w.registry)[..n], now) == []
  {
    hide Listed;
    if n > 0 {
      AliveIsNotSilent(w, n - 1, t, now);
      assert ListAll(w, w.registry)[..n][..n - 1] == ListAll(w, w.registry)[..n - 1];
      assert Fresh(Listed(w, w.registry[n - 1]), t);
    }
  }

  function LastBeat(ops: seq<Op>): Option<int> {
    if ops == [] then None
    else match ops[|ops| - 1]
      case Beat(at) => Some(at)
      case _ => LastBeat(ops[..|ops| - 1])
  }

  // Heartbeats follow one another within two minutes, and no action carries a time
  // earlier than the last heartbeat.
  predicate Prompt(ops: seq<Op>) {
    ops == [] ||
    (&& Prompt(ops[..|ops| - 1])
     && (LastBeat(ops[..|ops| - 1]).Some? ==>
           match ops[|ops| - 1]
           case Act(_, _, now) => LastBeat(ops[..|ops| - 1]).value <= now
           case Beat(at) => at - LastBeat(ops[..|ops| - 1]).value <= STALE
           case Recon(_) | Switch(_, _) => true))
  }

  // What the first heartbeat listed, and its time.
  function FirstBeat(w: World, ops: seq<Op>): Option<(seq<Row>, int)> {
    if ops == [] then None
    else
      var p := ops[..|ops| - 1];
      if FirstBeat(w, p).Some? then FirstBeat(w, p)
      else match ops[|ops| - 1]
        case Beat(at) => Some((ListAll(Run(w, p), Run(w, p).registry), at))
        case _ => None
  }

  lemma {:induction false} FirstAndLastBeat(w: World, ops: seq<Op>)
    ensures FirstBeat(w, ops).Some? <==> LastBeat(ops).Some?
    decreases |ops|
  {
    hide Run;
    if ops != [] { FirstAndLastBeat(w, ops[..|ops| - 1]); }
  }

  // No two listed rows of one id are silent.
  predicate SilentOnce(rows: seq<Row>, now: int) {
    forall i, j :: 0 <= i < j < |rows| && IsSilent(rows[i], now) && IsSilent(rows[j], now) ==>
      rows[i].botId != rows[j].botId
  }

  lemma {:induction false} SilentIds(rows: seq<Row>, now: int)
    ensures forall id :: id in Silent(rows, now) <==>
            exists i :: 0 <= i < |rows| && rows[i].botId == id && IsSilent(rows[i], now)
    decreases |rows|
  {
    if rows != [] {
      var n := |rows| - 1;
      SilentIds(rows[..n], now);
      forall id ensures id in Silent(rows, now) <==>
        exists i :: 0 <= i < |rows| && rows[i].botId == id && IsSilent(rows[i], now) {
        if id in Silent(rows[..n], now) {
          var i :| 0 <= i < n && rows[..n][i].botId == id && IsSilent(rows[..n][i], now);
          assert rows[i].botId == id;
        }
        if i :| 0 <= i < |rows| && rows[i].botId == id && IsSilent(rows[i], now) {
          if i < n { assert rows[..n][i].botId == id && IsSilent(rows[..n][i], now); }
        }
      }
    }
  }

  // The silent ids repeat exactly when two rows of one id are silent.
  lemma {:induction false} SilentRepeatsIff(rows: seq<Row>, now: int)
    ensures NoRepeats(Silent(rows, now)) <==> SilentOnce(rows, now)
    decreases |rows|
  {
    hide IsSilent;
    if rows != [] {
      var n := |rows| - 1;
      var p, x := rows[..n], rows[n];
      SilentRepeatsIff(p, now);
      SilentIds(p, now);
      hide NoRepeats, SilentOnce;
      SilentOnceStep(rows, now);
      NoRepeatsStep(Silent(p, now), x.botId);
      assert Silent(p, now) + [] == Silent(p, now);
    }
  }

  lemma SilentOnceStep(rows: seq<Row>, now: int)
    requires rows != []
    ensures var n := |rows| - 1;
            SilentOnce(rows, now) <==>
              SilentOnce(rows[..n], now)
              && (IsSilent(rows[n], now) ==>
                   !exists i :: 0 <= i < n && rows[..n][i].botId == rows[n].botId && IsSilent(rows[..n][i], now))
  {
    hide IsSilent;
    var n := |rows| - 1;
    assert forall i :: 0 <= i < n ==> rows[..n][i] == rows[i];
  }

  lemma NoRepeatsStep(s: seq<string>, x: string)
    ensures NoRepeats(s + [x]) <==> NoRepeats(s) && x !in s
  {
    var t := s + [x];
    assert t[|s|] == x && forall i :: 0 <= i < |s| ==> t[i] == s[i];
  }

  // However commands, reconciliations and prompt heartbeats interleave, the supervisor
  // restarts at the first heartbeat only, and exactly the bots it then finds silent; so
  // a bot is restarted twice exactly when that listing shows it silent twice, which
  // needs a registry that repeats its id.
  lemma {:induction false} PromptRunsRestartOnce(w: World, ops: seq<Op>)
    requires Prompt(ops)
    ensures var first := FirstBeat(w, ops);
            && Restarts(w, ops) == (if first.Some? then Silent(first.value.0, first.value.1) else [])
            && (NoRepeats(Restarts(w, ops)) <==> first.Some? ==> SilentOnce(first.value.0, first.value.1))
    ensures UniqueIds(w) ==> NoRepeats(Restarts(w, ops))
  {
    hide Restarts, FirstBeat, Silent, SilentOnce, UniqueIds;
    PromptRun(w, ops);
    var first := FirstBeat(w, ops);
    if first.Some? {
      SilentRepeatsIff(first.value.0, first.value.1);
      if UniqueIds(w) { FirstBeatSilentOnce(w, ops); }
    } else {
      assert NoRepeats(Restarts(w, ops)) by { NothingRepeats(); }
    }
  }

  lemma NothingRepeats()
    ensures NoRepeats<string>([])
  {}

  lemma {:induction false} PromptRun(w: World, ops: seq<Op>)
    requires Prompt(ops)
    ensures var first := FirstBeat(w, ops);
            Restarts(w, ops) == if first.Some? then Silent(first.value.0, first.value.1) else []
    ensures LastBeat(ops).Some? ==> Alive(Run(w, ops), LastBeat(ops).value)
    decreases |ops|
  {
    hide Acted, Reconcile, Heartbeat, Alive, Listed, Silent;
    if ops != [] {
      var p := ops[..|ops| - 1];
      PromptRun(w, p);
      FirstAndLastBeat(w, p);
      PromptStep(Run(w, p), LastBeat(p), ops[|ops| - 1]);
    }
  }

  // One operation after the last heartbeat, if there was one.
  lemma PromptStep(w: World, last: Option<int>, op: Op)
    requires last.Some? ==> Alive(w, last.value)
    requires last.Some? && op.Act? ==> last.value <= op.now
    requires last.Some? && op.Beat? ==> op.at - last.value <= STALE
    ensures var (t, restarted) := Do(w, op);
            && (op.Beat? ==>
                 Alive(t, op.at) && restarted == (if last.Some? then [] else Silent(ListAll(w, w.registry), op.at)))
            && (!op.Beat? ==> restarted == [] && (last.Some? ==> Alive(t, last.value)))
  {
    hide Acted, Reconcile, Heartbeat, Alive, Listed, Silent;
    match op
    case Act(action, key, now) =>
      ActStamps(w, action, key, now);
      if last.Some? { StampedKeepsAlive(w, Do(w, op).0, now, last.value); }
    case Recon(id) =>
      if last.Some? { ReconcileKeepsAlive(w, id, last.value); }
    case Switch(on, now) =>
      var t := Do(w, op).0;
      ControlIsNotListed(w, t.control);
      if last.Some? { SameListingKeepsAlive(w, t, last.value); }
    case Beat(now) =>
      HeartbeatRestartsTheSilent(w, now);
      var rows := ListAll(w, w.registry);
      assert rows[..|w.registry|] == rows;
      if last.Some? { AliveIsNotSilent(w, |w.registry|, last.value, now); }
  }

  lemma SameListingKeepsAlive(a: World, b: World, t: int)
    requires Alive(a, t) && SameIds(a, b) && forall i :: 0 <= i < |a.registry| ==>
             Listed(b, b.registry[i]) == Listed(a, a.registry[i])
    ensures Alive(b, t)
  {
    hide Listed;
    assert forall i :: 0 <= i < |b.registry| ==> Fresh(Listed(b, b.registry[i]), t);
  }

  // Ids never change.
  lemma {:induction false} IdsStay(w: World, ops: seq<Op>)
    ensures SameIds(w, Run(w, ops))
    decreases |ops|
  {
    hide Acted, Reconcile, Heartbeat, Listed;
    if ops != [] {
      var p := ops[..|ops| - 1];
      IdsStay(w, p);
      IdsStep(Run(w, p), ops[|ops| - 1]);
    }
  }

  lemma IdsStep(w: World, op: Op)
    ensures SameIds(w, Do(w, op).0)
  {
    hide Acted, Heartbeat, Listed, Upsert;
    match op
    case Act(action, key, now) => ActStamps(w, action, key, now);
    case Beat(now) => HeartbeatRestartsTheSilent(w, now);
    case _ =>
  }

  // With unique ids the first listing shows no id twice.
  lemma {:induction false} FirstBeatSilentOnce(w: World, ops: seq<Op>)
    requires UniqueIds(w)
    ensures var first := FirstBeat(w, ops);
            first.Some? ==> SilentOnce(first.value.0, first.value.1)
    decreases |ops|
  {
    hide Run, IsSilent, Listed;
    if ops != [] {
      var p := ops[..|ops| - 1];
      FirstBeatSilentOnce(w, p);
      IdsStay(w, p);
      var v := Run(w, p);
      forall i | 0 <= i < |v.registry| ensures ListAll(v, v.registry)[i].botId == w.registry[i].id {
        ListedId(v, v.registry[i]);
      }
    }
  }

  // ------------------------------------------------------------- the lost patch

  // A stop of a bot that was already out of its trade, by a stop at the same time.
  predicate StoppedAt(p: P.Position, now: int) {
    p.place == P.OutOfTrade && p.lastExit == Some(now) && p.lastAt == Some(now) && p.lastKind == Some(P.BotStopped)
  }

  // From rows that agree, a transition leaves the state file and the database agreeing
  // exactly when it is not a stop, or stops a bot that was stopped at this very time:
  // a stop moves the database row only, the file row is written back as it was.
  lemma StopLosesTheFilePatch(w: World, key: string, status: RunStatus, now: int)
    requires FindBot(w, key).Some? && FindBot(w, key).value.id in w.db && status != P.ErrorNow
    requires Listed(w, FindBot(w, key).value).position == w.db[FindBot(w, key).value.id]
    ensures var id := FindBot(w, key).value.id;
            var t := Transition(w, key, status, now).value;
            && Persisted(t.file, id).Some? && id in t.db
            && (Persisted(t.file, id).value.position == t.db[id] <==>
                 (status == P.StoppedNow ==> StoppedAt(w.db[id], now)))
  {
    hide Listed;
    TransitionWrites(w, key, status, now);
    var found := FindBot(w, key).value;
    var row := Listed(w, found).(status := status, lastHeartbeat := Some(now));
    PersistedUpsert(w.file, row, found.id);
  }
}
