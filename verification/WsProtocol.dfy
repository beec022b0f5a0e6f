/**
 The push protocol of one WebSocket connection (ib_trader/api/ws.py, _activity_listener and
 websocket_endpoint): writers change channels and announce it, a listener marks channels dirty, the main
 loop refetches and sends diffs. The steps interleave wherever the code awaits, and announcements may be
 lost. `client` is what an ideal client holds once it has taken everything sent so far.
 */
module WsProtocol {
  import opened Wrappers
  import opened WsChannels
  import opened WsReplica

  type Name = string

  /** What the main loop is doing: nothing, refetching channels, or building a snapshot. */
  datatype Task =
    | Idle
    | Refreshing(todo: set<Name>, held: Option<Name>, data: seq<Item>)
    | Subscribing(todo: set<Name>, held: Option<Name>, data: seq<Item>, snapshot: map<Name, seq<Item>>)

  datatype State = State(
    db: map<Name, seq<Item>>,
    unannounced: multiset<Name>,
    notices: seq<Name>,
    lost: set<Name>,
    subscribed: set<Name>,
    channels: map<Name, Channel>,
    dirty: set<Name>,
    signal: bool,
    task: Task,
    client: map<Name, map<Key, Item>>)

  datatype Move =
    | Write(name: Name, rows: seq<Item>, status: seq<Item>)
    | Announce(name: Name)
    | Lose(name: Name)
    | Miss
    | Listen
    | Subscribe(names: set<Name>)
    | BeginRefresh(full: bool)
    | Fetch(name: Name)
    | Emit
    | SendSnapshot

  const STATUS := "status"
  const STATUS_TRIGGERS := {"trades", "orders", "alerts", "heartbeats", "commands"}
  const VALID_CHANNELS := {"trades", "orders", "alerts", "commands", "heartbeats", "bot_events", "bots", "status"}

  function RowsOf(db: map<Name, seq<Item>>, name: Name): seq<Item> {
    if name in db then db[name] else []
  }

  /** A change announced for `source` may have changed channel `name`. */
  predicate Touches(source: Name, name: Name) {
    source == name || (source in STATUS_TRIGGERS && name == STATUS)
  }

  predicate Enabled(s: State, m: Move) {
    match m
    case Write(_, rows, status) => Keyed(rows) && Keyed(status)
    case Announce(name) => name in s.unannounced
    case Lose(name) => name in s.unannounced
    case Miss => |s.notices| > 0
    case Listen => |s.notices| > 0
    case Subscribe(_) => s.task.Idle?
    case BeginRefresh(full) => s.task.Idle? && s.subscribed != {} && (full || s.signal)
    case Fetch(name) => !s.task.Idle? && s.task.held.None? && name in s.task.todo
    case Emit => !s.task.Idle? && s.task.held.Some? && s.task.held.value in s.channels
    case SendSnapshot => s.task.Subscribing? && s.task.held.None? && s.task.todo == {}
  }

  /** The listener takes one announcement; channels nobody subscribed to are not marked. */
  function Heard(s: State): State
    requires |s.notices| > 0
  {
    var source := s.notices[0];
    var marked := (if source in s.subscribed then {source} else {})
                  + (if source in STATUS_TRIGGERS && STATUS in s.subscribed then {STATUS} else {});
    s.(notices := s.notices[1..], dirty := s.dirty + marked, signal := s.signal || marked != {})
  }

  /** The main loop finishes one fetched channel: update it, and send the diff or keep it for the snapshot. */
  function Emitted(hashOf: seq<Item> -> string, s: State): State
    requires Enabled(s, Emit)
  {
    var name, data := s.task.held.value, s.task.data;
    var (next, diff) := Updated(hashOf, s.channels[name], data);
    match s.task
    case Subscribing(todo, _, _, snapshot) =>
      s.(channels := s.channels[name := next], task := Subscribing(todo, None, [], snapshot[name := data]))
    case Refreshing(todo, _, _) =>
      s.(channels := s.channels[name := next],
         client := if name in s.client then s.client[name := Received(s.client[name], diff)] else s.client,
         task := if todo == {} then Idle else Refreshing(todo, None, []))
  }

  function Next(hashOf: seq<Item> -> string, s: State, m: Move): State
    requires Enabled(s, m)
  {
    match m
    case Write(name, rows, status) =>
      var db := s.db[name := rows];
      s.(db := if name in STATUS_TRIGGERS then db[STATUS := status] else db,
         unannounced := s.unannounced + multiset{name})
    case Announce(name) => s.(unannounced := s.unannounced - multiset{name}, notices := s.notices + [name])
    case Lose(name) => s.(unannounced := s.unannounced - multiset{name}, lost := s.lost + {name})
    case Miss => s.(notices := s.notices[1..], lost := s.lost + {s.notices[0]})
    case Listen => Heard(s)
    case Subscribe(names) =>
      s.(subscribed := names * VALID_CHANNELS, lost := {},
         channels := map c | c in names * VALID_CHANNELS :: Channel([], ""),
         task := Subscribing(names * VALID_CHANNELS, None, [], map[]))
    case BeginRefresh(full) =>
      var todo := if full then s.subscribed else s.dirty * s.subscribed;
      s.(dirty := {}, signal := false, lost := if full then {} else s.lost,
         task := if todo == {} then Idle else Refreshing(todo, None, []))
    case Fetch(name) =>
      var data := RowsOf(s.db, name);
      s.(task := if s.task.Refreshing? then Refreshing(s.task.todo - {name}, Some(name), data)
                 else Subscribing(s.task.todo - {name}, Some(name), data, s.task.snapshot))
    case Emit => Emitted(hashOf, s)
    case SendSnapshot =>
      s.(client := map c | c in s.task.snapshot :: Rows(s.task.snapshot[c]), task := Idle)
  }

  // ---- Every subscribed channel is fresh or on its way --------------------------------

  /**
   A refetch of the channel is still to come: it is dirty, or an announcement that touches it is on its
   way, or was lost since everything was last refetched.
   */
  ghost predicate Covered(s: State, name: Name) {
    || name in s.dirty
    || (exists i :: 0 <= i < |s.notices| && Touches(s.notices[i], name))
    || (exists source :: source in s.unannounced && Touches(source, name))
    || (exists source :: source in s.lost && Touches(source, name))
  }

  /** These rows are those of the database, or a refetch is still to come. */
  ghost predicate Current(s: State, name: Name, data: seq<Item>) {
    Keyed(data) && (data == RowsOf(s.db, name) || Covered(s, name))
  }

  /** The client and the channel hold the same rows. */
  ghost predicate Replica(hashOf: seq<Item> -> string, s: State, name: Name) {
    && name in s.channels && name in s.client
    && Keyed(s.channels[name].data) && Hashed(hashOf, s.channels[name])
    && s.client[name] == Rows(s.channels[name].data)
  }

  /** A subscribed channel is current, or about to be refetched. */
  ghost predicate Kept(hashOf: seq<Item> -> string, s: State, name: Name) {
    match s.task
    case Idle => Replica(hashOf, s, name) && Current(s, name, s.channels[name].data)
    case Refreshing(todo, held, data) =>
      && Replica(hashOf, s, name)
      && (name in todo || Current(s, name, if held == Some(name) then data else s.channels[name].data))
    case Subscribing(todo, held, data, snapshot) =>
      && name in s.channels && Keyed(s.channels[name].data) && Hashed(hashOf, s.channels[name])
      && (name in snapshot ==> s.channels[name].data == snapshot[name])
      && (|| name in todo
          || (if held == Some(name) then Current(s, name, data)
              else name in snapshot && Current(s, name, snapshot[name])))
  }

  ghost predicate Safe(hashOf: seq<Item> -> string, s: State) {
    && (forall name :: name in s.db ==> Keyed(s.db[name]))
    && (s.dirty != {} ==> s.signal)
    && (!s.task.Idle? ==> s.task.todo <= s.subscribed)
    && (!s.task.Idle? && s.task.held.Some? ==> s.task.held.value in s.subscribed && Keyed(s.task.data))
    && (s.task.Refreshing? ==> s.task.held.Some? || s.task.todo != {})
    && (s.task.Subscribing? ==> s.task.snapshot.Keys <= s.subscribed)
    && (forall name :: name in s.subscribed ==> Kept(hashOf, s, name))
  }

  ghost predicate Begun(s: State) {
    && (forall name :: name in s.db ==> Keyed(s.db[name]))
    && s.subscribed == {} && s.dirty == {} && s.task.Idle?
  }

  lemma {:induction false} CurrentAfterWrite(hashOf: seq<Item> -> string, s: State, m: Move, name: Name,
                                             data: seq<Item>)
    requires m.Write? && Enabled(s, m) && Current(s, name, data)
    ensures Current(Next(hashOf, s, m), name, data)
  {
    var n := Next(hashOf, s, m);
    if Touches(m.name, name) {
      assert m.name in n.unannounced;
    } else {
      assert RowsOf(n.db, name) == RowsOf(s.db, name);
      if source :| source in s.unannounced && Touches(source, name) {
        assert source in n.unannounced;
      }
    }
  }

  lemma {:induction false} CurrentAfterAnnounce(hashOf: seq<Item> -> string, s: State, m: Move, name: Name,
                                                data: seq<Item>)
    requires m.Announce? && Enabled(s, m) && Current(s, name, data)
    ensures Current(Next(hashOf, s, m), name, data)
  {
    var n := Next(hashOf, s, m);
    assert n.notices[|s.notices|] == m.name;
    assert forall i :: 0 <= i < |s.notices| ==> n.notices[i] == s.notices[i];
    if source :| source in s.unannounced && Touches(source, name) {
      assert source == m.name || source in n.unannounced;
    }
  }

  lemma {:induction false} CurrentAfterListen(hashOf: seq<Item> -> string, s: State, name: Name, data: seq<Item>)
    requires Enabled(s, Listen) && name in s.subscribed && Current(s, name, data)
    ensures Current(Next(hashOf, s, Listen), name, data)
  {
    var n := Next(hashOf, s, Listen);
    if name !in s.dirty && exists i :: 0 <= i < |s.notices| && Touches(s.notices[i], name) {
      var i :| 0 <= i < |s.notices| && Touches(s.notices[i], name);
      if i > 0 {
        assert n.notices[i - 1] == s.notices[i];
      }
    }
  }

  lemma {:induction false} CurrentAfterLoss(hashOf: seq<Item> -> string, s: State, m: Move, name: Name, data: seq<Item>)
    requires (m.Lose? || m.Miss?) && Enabled(s, m) && Current(s, name, data)
    ensures Current(Next(hashOf, s, m), name, data)
  {
    var n, source := Next(hashOf, s, m), if m.Lose? then m.name else s.notices[0];
    assert source in n.lost;
    if !Touches(source, name) && Covered(s, name) {
      assert forall i :: 0 <= i < |n.notices| ==> n.notices[i] == s.notices[if m.Miss? then i + 1 else i];
      if other :| other in s.unannounced && Touches(other, name) {
        assert other in n.unannounced;
      } else if i :| 0 <= i < |s.notices| && Touches(s.notices[i], name) {
        assert n.notices[if m.Miss? then i - 1 else i] == s.notices[i];
      }
    }
  }

  /** A step that leaves the main loop's side alone, and what is current. */
  lemma {:induction false} LoopUndisturbed(hashOf: seq<Item> -> string, s: State, n: State)
    requires Safe(hashOf, s) && (forall name :: name in n.db ==> Keyed(n.db[name])) && (n.dirty != {} ==> n.signal)
    requires n.subscribed == s.subscribed && n.task == s.task && n.channels == s.channels && n.client == s.client
    requires forall name, data :: name in s.subscribed && Current(s, name, data) ==> Current(n, name, data)
    ensures Safe(hashOf, n)
  {
    forall name | name in s.subscribed ensures Kept(hashOf, n, name) {
      assert Kept(hashOf, s, name);
    }
  }

  /** Writers, losses and the listener leave the main loop's side alone. */
  lemma {:induction false} EnvironmentIsSafe(hashOf: seq<Item> -> string, s: State, m: Move)
    requires Safe(hashOf, s) && Enabled(s, m) && (m.Write? || m.Announce? || m.Lose? || m.Miss? || m.Listen?)
    ensures Safe(hashOf, Next(hashOf, s, m))
  {
    var n := Next(hashOf, s, m);
    forall name, data | name in s.subscribed && Current(s, name, data) ensures Current(n, name, data) {
      match m
      case Write(_, _, _) => CurrentAfterWrite(hashOf, s, m, name, data);
      case Announce(_) => CurrentAfterAnnounce(hashOf, s, m, name, data);
      case Lose(_) => CurrentAfterLoss(hashOf, s, m, name, data);
      case Miss => CurrentAfterLoss(hashOf, s, m, name, data);
      case Listen => CurrentAfterListen(hashOf, s, name, data);
    }
    LoopUndisturbed(hashOf, s, n);
  }

  lemma {:induction false} SubscribeIsSafe(hashOf: seq<Item> -> string, s: State, names: set<Name>)
    requires Safe(hashOf, s) && Enabled(s, Subscribe(names))
    ensures Safe(hashOf, Next(hashOf, s, Subscribe(names)))
  {
  }

  lemma {:induction false} BeginRefreshIsSafe(hashOf: seq<Item> -> string, s: State, full: bool)
    requires Safe(hashOf, s) && Enabled(s, BeginRefresh(full))
    ensures Safe(hashOf, Next(hashOf, s, BeginRefresh(full)))
  {
    var n := Next(hashOf, s, BeginRefresh(full));
    forall name | name in s.subscribed ensures Kept(hashOf, n, name) {
      assert Kept(hashOf, s, name);
    }
  }

  lemma {:induction false} FetchIsSafe(hashOf: seq<Item> -> string, s: State, name: Name)
    requires Safe(hashOf, s) && Enabled(s, Fetch(name))
    ensures Safe(hashOf, Next(hashOf, s, Fetch(name)))
  {
    var n := Next(hashOf, s, Fetch(name));
    forall c | c in s.subscribed ensures Kept(hashOf, n, c) {
      assert Kept(hashOf, s, c);
    }
  }

  /** The channel just emitted holds what was fetched, which is current. */
  lemma {:induction false} EmitHere(hashOf: seq<Item> -> string, s: State)
    requires Faithful(hashOf) && Enabled(s, Emit) && Kept(hashOf, s, s.task.held.value) && Keyed(s.task.data)
    ensures Kept(hashOf, Next(hashOf, s, Emit), s.task.held.value)
  {
    var n, name := Next(hashOf, s, Emit), s.task.held.value;
    KeyedFollowable(s.channels[name].data, s.task.data);
    UpdateKeepsReplica(hashOf, s.channels[name], s.task.data);
    assert n.channels[name].data == s.task.data && Hashed(hashOf, n.channels[name]);
    if name !in s.task.todo {
      assert Current(s, name, s.task.data);
      assert Current(n, name, s.task.data);
    }
  }

  lemma {:induction false} EmitElsewhere(hashOf: seq<Item> -> string, s: State, c: Name)
    requires Enabled(s, Emit) && Kept(hashOf, s, c) && c != s.task.held.value
    ensures Kept(hashOf, Next(hashOf, s, Emit), c)
  {
    var n := Next(hashOf, s, Emit);
    assert c in s.channels && n.channels[c] == s.channels[c];
    assert Current(s, c, s.channels[c].data) ==> Current(n, c, s.channels[c].data);
  }

  lemma {:induction false} EmitIsSafe(hashOf: seq<Item> -> string, s: State)
    requires Faithful(hashOf) && Safe(hashOf, s) && Enabled(s, Emit)
    ensures Safe(hashOf, Next(hashOf, s, Emit))
  {
    var n := Next(hashOf, s, Emit);
    EmitHere(hashOf, s);
    forall c | c in s.subscribed ensures Kept(hashOf, n, c) {
      if c != s.task.held.value {
        EmitElsewhere(hashOf, s, c);
      }
    }
  }

  lemma {:induction false} SendSnapshotIsSafe(hashOf: seq<Item> -> string, s: State)
    requires Safe(hashOf, s) && Enabled(s, SendSnapshot)
    ensures Safe(hashOf, Next(hashOf, s, SendSnapshot))
  {
    var n := Next(hashOf, s, SendSnapshot);
    forall c | c in s.subscribed ensures Kept(hashOf, n, c) {
      assert Kept(hashOf, s, c);
    }
  }

  lemma {:induction false} NextIsSafe(hashOf: seq<Item> -> string, s: State, m: Move)
    requires Faithful(hashOf) && Safe(hashOf, s) && Enabled(s, m)
    ensures Safe(hashOf, Next(hashOf, s, m))
  {
    match m
    case Write(_, _, _) => EnvironmentIsSafe(hashOf, s, m);
    case Announce(_) => EnvironmentIsSafe(hashOf, s, m);
    case Lose(_) => EnvironmentIsSafe(hashOf, s, m);
    case Miss => EnvironmentIsSafe(hashOf, s, m);
    case Listen => EnvironmentIsSafe(hashOf, s, m);
    case Subscribe(names) => SubscribeIsSafe(hashOf, s, names);
    case BeginRefresh(full) => BeginRefreshIsSafe(hashOf, s, full);
    case Fetch(name) => FetchIsSafe(hashOf, s, name);
    case Emit => EmitIsSafe(hashOf, s);
    case SendSnapshot => SendSnapshotIsSafe(hashOf, s);
  }

  ghost predicate IsRun(hashOf: seq<Item> -> string, states: seq<State>, moves: seq<Move>) {
    && |states| == |moves| + 1
    && forall k :: 0 <= k < |moves| ==>
         Enabled(states[k], moves[k]) && states[k + 1] == Next(hashOf, states[k], moves[k])
  }

  /** In every interleaving each subscribed channel is current, or its refetch is still to come. */
  lemma {:induction false} RunsAreSafe(hashOf: seq<Item> -> string, states: seq<State>, moves: seq<Move>, k: nat)
    requires Faithful(hashOf) && IsRun(hashOf, states, moves) && Begun(states[0]) && k < |states|
    ensures Safe(hashOf, states[k])
  {
    if k > 0 {
      RunsAreSafe(hashOf, states, moves, k - 1);
      NextIsSafe(hashOf, states[k - 1], moves[k - 1]);
    }
  }

  /** The main loop can always go on with what it has begun: the channel it fetched is one it keeps. */
  lemma {:induction false} NeverStuck(hashOf: seq<Item> -> string, states: seq<State>, moves: seq<Move>, k: nat)
    requires Faithful(hashOf) && IsRun(hashOf, states, moves)
    requires Begun(states[0]) && k < |states| && !states[k].task.Idle?
    ensures || Enabled(states[k], Emit) || Enabled(states[k], SendSnapshot)
            || exists name :: Enabled(states[k], Fetch(name))
  {
    var s := states[k];
    RunsAreSafe(hashOf, states, moves, k);
    if s.task.held.Some? {
      assert Kept(hashOf, s, s.task.held.value);
    } else if s.task.todo != {} {
      var name :| name in s.task.todo;
      assert Enabled(s, Fetch(name));
    }
  }

  /** The client holds the database's rows of every subscribed channel. */
  ghost predicate Converged(s: State) {
    forall name :: name in s.subscribed ==> name in s.client && s.client[name] == Rows(RowsOf(s.db, name))
  }

  /** Nothing is left to announce, to hear, or to refetch, and nothing was lost since everything was refetched. */
  ghost predicate Quiet(s: State) {
    s.unannounced == multiset{} && s.lost == {} && s.notices == [] && s.dirty == {} && s.task.Idle?
  }

  lemma {:induction false} QuietIsConverged(hashOf: seq<Item> -> string, s: State)
    requires Safe(hashOf, s) && Quiet(s)
    ensures Converged(s)
  {
    forall name | name in s.subscribed ensures name in s.client && s.client[name] == Rows(RowsOf(s.db, name)) {
      assert Kept(hashOf, s, name);
    }
  }

  // ---- A full refresh makes up for lost announcements ----------------------------------

  /** What is held of the channel is the database's, or will be fetched. */
  predicate Refetched(s: State, name: Name) {
    match s.task
    case Idle => name in s.channels && s.channels[name].data == RowsOf(s.db, name)
    case Refreshing(todo, held, data) =>
      || name in todo
      || (if held == Some(name) then data == RowsOf(s.db, name)
          else name in s.channels && s.channels[name].data == RowsOf(s.db, name))
    case Subscribing(todo, held, data, snapshot) =>
      || name in todo
      || (if held == Some(name) then data == RowsOf(s.db, name)
          else name in s.channels && name in snapshot && s.channels[name].data == RowsOf(s.db, name))
  }

  ghost predicate AllRefetched(s: State) {
    forall name :: name in s.subscribed ==> Refetched(s, name)
  }

  lemma {:induction false} EmitRefetches(hashOf: seq<Item> -> string, s: State, name: Name)
    requires Faithful(hashOf) && Safe(hashOf, s) && name in s.subscribed && Refetched(s, name) && Enabled(s, Emit)
    ensures Refetched(Next(hashOf, s, Emit), name)
  {
    var n, held := Next(hashOf, s, Emit), s.task.held.value;
    assert Kept(hashOf, s, held);
    KeyedFollowable(s.channels[held].data, s.task.data);
    UpdateKeepsReplica(hashOf, s.channels[held], s.task.data);
    assert n.channels[held].data == s.task.data;
    assert name != held && name in s.channels ==> n.channels[name] == s.channels[name];
  }

  lemma {:induction false} RefetchedStays(hashOf: seq<Item> -> string, s: State, m: Move, name: Name)
    requires Faithful(hashOf) && Safe(hashOf, s) && Enabled(s, m) && !m.Write?
    requires name in Next(hashOf, s, m).subscribed && (name in s.subscribed ==> Refetched(s, name))
    ensures Refetched(Next(hashOf, s, m), name)
  {
    if m.Emit? {
      EmitRefetches(hashOf, s, name);
    }
    if m.SendSnapshot? {
      assert Kept(hashOf, s, name);
    }
  }

  lemma {:induction false} AllStay(hashOf: seq<Item> -> string, s: State, m: Move)
    requires Faithful(hashOf) && Safe(hashOf, s) && Enabled(s, m) && !m.Write? && AllRefetched(s)
    ensures AllRefetched(Next(hashOf, s, m))
  {
    var n := Next(hashOf, s, m);
    forall name | name in n.subscribed ensures Refetched(n, name) {
      RefetchedStays(hashOf, s, m, name);
    }
  }

  lemma {:induction false} FullRefreshBegins(hashOf: seq<Item> -> string, s: State)
    requires Enabled(s, BeginRefresh(true))
    ensures AllRefetched(Next(hashOf, s, BeginRefresh(true)))
  {
  }

  lemma {:induction false} RefetchedConverged(hashOf: seq<Item> -> string, s: State)
    requires Safe(hashOf, s) && AllRefetched(s) && s.task.Idle?
    ensures Converged(s)
  {
    forall name | name in s.subscribed ensures name in s.client && s.client[name] == Rows(RowsOf(s.db, name)) {
      assert Kept(hashOf, s, name) && Refetched(s, name);
    }
  }

  /** After a full refresh has begun, and nothing was written since, everything is refetched or will be. */
  lemma {:induction false} AllRefetchedAfter(hashOf: seq<Item> -> string, states: seq<State>, moves: seq<Move>,
                                             i: nat, j: nat)
    requires Faithful(hashOf) && IsRun(hashOf, states, moves) && Begun(states[0]) && i < j < |states|
    requires moves[i] == BeginRefresh(true) && forall k :: i < k < j ==> !moves[k].Write?
    ensures AllRefetched(states[j])
    decreases j
  {
    if j == i + 1 {
      FullRefreshBegins(hashOf, states[i]);
    } else {
      AllRefetchedAfter(hashOf, states, moves, i, j - 1);
      RunsAreSafe(hashOf, states, moves, j - 1);
      AllStay(hashOf, states[j - 1], moves[j - 1]);
    }
  }

  // ---- A heard announcement is not forgotten ---------------------------------------------

  /** Marked dirty, or in the refresh or snapshot under way. */
  predicate Due(s: State, name: Name) {
    name in s.subscribed ==> name in s.dirty || (!s.task.Idle? && name in s.task.todo)
  }

  /** An announcement concerns its own channel, and those of the channels that the status sums up also the status. */
  predicate Concerns(source: Name, name: Name) {
    || source == name
    || (name == "status" && (source == "trades" || source == "orders" || source == "alerts"
                             || source == "heartbeats" || source == "commands"))
  }

  lemma {:induction false} HeardIsDue(hashOf: seq<Item> -> string, s: State, name: Name)
    requires Enabled(s, Listen) && Concerns(s.notices[0], name)
    ensures Due(Next(hashOf, s, Listen), name)
  {
  }

  lemma {:induction false} DueStays(hashOf: seq<Item> -> string, s: State, m: Move, name: Name)
    requires Enabled(s, m) && Due(s, name) && m != Fetch(name)
    ensures Due(Next(hashOf, s, m), name)
  {
  }

  /** From the moment an announcement is heard, a channel it touches stays due until it is fetched again. */
  lemma {:induction false} DueUntilFetched(hashOf: seq<Item> -> string, states: seq<State>, moves: seq<Move>,
                                           name: Name, i: nat, j: nat)
    requires IsRun(hashOf, states, moves) && i < j < |states|
    requires moves[i] == Listen && Concerns(states[i].notices[0], name)
    requires forall k :: i < k < j ==> moves[k] != Fetch(name)
    ensures Due(states[j], name)
    decreases j
  {
    if j == i + 1 {
      HeardIsDue(hashOf, states[i], name);
    } else {
      DueUntilFetched(hashOf, states, moves, name, i, j - 1);
      DueStays(hashOf, states[j - 1], moves[j - 1], name);
    }
  }

  // ---- What a client that subscribed is served -----------------------------------------------

  /** The eight channels there are. */
  predicate IsChannel(name: Name) {
    || name == "trades" || name == "orders" || name == "alerts" || name == "commands"
    || name == "heartbeats" || name == "bot_events" || name == "bots" || name == "status"
  }

  /** `names` was the last subscription before the `k`th state, made by the move at `at`. */
  ghost predicate LastSubscription(moves: seq<Move>, at: nat, k: nat, names: set<Name>) {
    at < k <= |moves| && moves[at] == Subscribe(names) && forall i :: at < i < k ==> !moves[i].Subscribe?
  }

  /** The subscription is those of the names that are channels, and once the snapshot is sent the client holds them. */
  ghost predicate Serves(s: State, names: set<Name>) {
    && s.subscribed == (set n | n in names && IsChannel(n))
    && (!s.task.Subscribing? ==> s.client.Keys == s.subscribed)
  }

  lemma {:induction false} SubscribeServes(hashOf: seq<Item> -> string, s: State, names: set<Name>)
    requires Enabled(s, Subscribe(names))
    ensures Serves(Next(hashOf, s, Subscribe(names)), names)
  {
    assert names * VALID_CHANNELS == set n | n in names && IsChannel(n);
  }

  lemma {:induction false} ServesNext(hashOf: seq<Item> -> string, s: State, m: Move, names: set<Name>)
    requires Safe(hashOf, s) && Enabled(s, m) && !m.Subscribe? && Serves(s, names)
    ensures Serves(Next(hashOf, s, m), names)
  {
    if m.SendSnapshot? {
      forall name | name in s.subscribed ensures name in s.task.snapshot {
        assert Kept(hashOf, s, name);
      }
      assert s.task.snapshot.Keys == s.subscribed;
    }
  }

  lemma {:induction false} ServedSince(hashOf: seq<Item> -> string, states: seq<State>, moves: seq<Move>,
                                       at: nat, k: nat, names: set<Name>)
    requires Faithful(hashOf) && IsRun(hashOf, states, moves) && Begun(states[0])
    requires LastSubscription(moves, at, k, names)
    ensures Serves(states[k], names)
    decreases k
  {
    if k == at + 1 {
      SubscribeServes(hashOf, states[at], names);
    } else {
      ServedSince(hashOf, states, moves, at, k - 1, names);
      RunsAreSafe(hashOf, states, moves, k - 1);
      ServesNext(hashOf, states[k - 1], moves[k - 1], names);
    }
  }

  /**
   From a subscription to the next one exactly those of its names that are channels are served, and each of
   them is current or its refetch is still to come.
   */
  lemma {:induction false} ServesSubscription(hashOf: seq<Item> -> string, states: seq<State>, moves: seq<Move>,
                                              at: nat, k: nat, names: set<Name>)
    requires Faithful(hashOf) && IsRun(hashOf, states, moves) && Begun(states[0])
    requires LastSubscription(moves, at, k, names)
    ensures Serves(states[k], names) && forall n :: n in names && IsChannel(n) ==> Kept(hashOf, states[k], n)
  {
    RunsAreSafe(hashOf, states, moves, k);
    ServedSince(hashOf, states, moves, at, k, names);
  }

  /** The rows last written to a channel; a write to a channel that the status sums up also writes the status. */
  function Stored(db: map<Name, seq<Item>>, moves: seq<Move>, name: Name): seq<Item> {
    if |moves| == 0 then (if name in db then db[name] else [])
    else
      var before := Stored(db, moves[..|moves| - 1], name);
      match moves[|moves| - 1]
      case Write(written, rows, status) =>
        if written != name && Concerns(written, name) then status else if written == name then rows else before
      case _ => before
  }

  lemma {:induction false} DatabaseHolds(hashOf: seq<Item> -> string, states: seq<State>, moves: seq<Move>, k: nat,
                                         name: Name)
    requires IsRun(hashOf, states, moves) && k < |states|
    ensures RowsOf(states[k].db, name) == Stored(states[0].db, moves[..k], name)
  {
    if k > 0 {
      DatabaseHolds(hashOf, states, moves, k - 1, name);
      assert moves[..k][..k - 1] == moves[..k - 1];
      StoredNext(hashOf, states[k - 1], moves[k - 1], name);
    }
  }

  lemma {:induction false} StoredNext(hashOf: seq<Item> -> string, s: State, m: Move, name: Name)
    requires Enabled(s, m)
    ensures RowsOf(Next(hashOf, s, m).db, name)
         == match m
            case Write(written, rows, status) =>
              if written != name && Concerns(written, name) then status
              else if written == name then rows else RowsOf(s.db, name)
            case _ => RowsOf(s.db, name)
  {
  }

  /** The client holds, of exactly the channels in `names`, the rows last written. */
  ghost predicate UpToDate(s: State, db: map<Name, seq<Item>>, moves: seq<Move>, names: set<Name>) {
    && (forall n :: n in s.client <==> n in names && IsChannel(n))
    && (forall n :: n in s.client ==> s.client[n] == Rows(Stored(db, moves, n)))
  }

  lemma {:induction false} ConvergedIsUpToDate(hashOf: seq<Item> -> string, states: seq<State>, moves: seq<Move>,
                                               at: nat, k: nat, names: set<Name>)
    requires Faithful(hashOf) && IsRun(hashOf, states, moves) && Begun(states[0])
    requires LastSubscription(moves, at, k, names) && Converged(states[k]) && states[k].task.Idle?
    ensures UpToDate(states[k], states[0].db, moves[..k], names)
  {
    var s := states[k];
    ServesSubscription(hashOf, states, moves, at, k, names);
    forall n | n in s.client ensures s.client[n] == Rows(Stored(states[0].db, moves[..k], n)) {
      DatabaseHolds(hashOf, states, moves, k, n);
    }
    assert forall n :: n in s.client <==> n in s.client.Keys;
  }

  /** Once everything is quiet, the client holds exactly what was last written to the channels it subscribed to. */
  lemma {:induction false} QuietMeansConverged(hashOf: seq<Item> -> string, states: seq<State>, moves: seq<Move>,
                                               at: nat, k: nat, names: set<Name>)
    requires Faithful(hashOf) && IsRun(hashOf, states, moves) && Begun(states[0])
    requires LastSubscription(moves, at, k, names) && Quiet(states[k])
    ensures UpToDate(states[k], states[0].db, moves[..k], names)
  {
    RunsAreSafe(hashOf, states, moves, k);
    QuietIsConverged(hashOf, states[k]);
    ConvergedIsUpToDate(hashOf, states, moves, at, k, names);
  }

  /**
   Whatever announcements are lost: when a full refresh began and nothing was written since, the client
   holds exactly what was last written to the channels it subscribed to, as soon as the main loop is idle.
   */
  lemma {:induction false} FullRefreshConverges(hashOf: seq<Item> -> string, states: seq<State>, moves: seq<Move>,
                                                i: nat, at: nat, k: nat, names: set<Name>)
    requires Faithful(hashOf) && IsRun(hashOf, states, moves) && Begun(states[0])
    requires LastSubscription(moves, at, k, names)
    requires i < k && moves[i] == BeginRefresh(true) && forall j :: i < j < k ==> !moves[j].Write?
    requires states[k].task.Idle?
    ensures UpToDate(states[k], states[0].db, moves[..k], names)
  {
    AllRefetchedAfter(hashOf, states, moves, i, k);
    RunsAreSafe(hashOf, states, moves, k);
    RefetchedConverged(hashOf, states[k]);
    ConvergedIsUpToDate(hashOf, states, moves, at, k, names);
  }

  // ---- It can always catch up --------------------------------------------------------------------

  /** A channel that is due when the loop is idle is in the refresh that may then begin. */
  lemma {:induction false} DirtyIsRefreshed(hashOf: seq<Item> -> string, states: seq<State>, moves: seq<Move>, k: nat,
                                            name: Name)
    requires Faithful(hashOf) && IsRun(hashOf, states, moves) && Begun(states[0]) && k < |states|
    requires states[k].task.Idle? && name in states[k].dirty * states[k].subscribed
    ensures Enabled(states[k], BeginRefresh(false))
    ensures name in Next(hashOf, states[k], BeginRefresh(false)).task.todo
  {
    RunsAreSafe(hashOf, states, moves, k);
  }

  function Work(s: State): nat {
    match s.task
    case Idle => 0
    case Refreshing(todo, held, _) => 2 * |todo| + if held.Some? then 1 else 0
    case Subscribing(todo, held, _, _) => 2 * |todo| + 1 + if held.Some? then 1 else 0
  }

  /** Moves of the main loop alone that finish what it has begun. */
  ghost predicate Finishes(hashOf: seq<Item> -> string, s: State, states: seq<State>, moves: seq<Move>) {
    && IsRun(hashOf, states, moves) && states[0] == s && states[|moves|].task.Idle?
    && forall i :: 0 <= i < |moves| ==> moves[i].Fetch? || moves[i].Emit? || moves[i].SendSnapshot?
  }

  lemma {:induction false} LoopStep(hashOf: seq<Item> -> string, s: State) returns (m: Move)
    requires Safe(hashOf, s) && !s.task.Idle?
    ensures (m.Fetch? || m.Emit? || m.SendSnapshot?) && Enabled(s, m) && Work(Next(hashOf, s, m)) < Work(s)
  {
    if s.task.held.Some? {
      assert Kept(hashOf, s, s.task.held.value);
      m := Emit;
    } else if s.task.todo != {} {
      var name :| name in s.task.todo;
      assert |s.task.todo - {name}| == |s.task.todo| - 1;
      m := Fetch(name);
    } else {
      m := SendSnapshot;
    }
  }

  lemma {:induction false} FinishTask(hashOf: seq<Item> -> string, s: State)
    returns (states: seq<State>, moves: seq<Move>)
    requires Faithful(hashOf) && Safe(hashOf, s)
    ensures Finishes(hashOf, s, states, moves)
    decreases Work(s)
  {
    if s.task.Idle? {
      states, moves := [s], [];
    } else {
      var m := LoopStep(hashOf, s);
      var next := Next(hashOf, s, m);
      NextIsSafe(hashOf, s, m);
      var after, rest := FinishTask(hashOf, next);
      states, moves := [s] + after, [m] + rest;
      Prepend(hashOf, s, m, after, rest);
    }
  }

  lemma {:induction false} Prepend(hashOf: seq<Item> -> string, s: State, m: Move, states: seq<State>, moves: seq<Move>)
    requires IsRun(hashOf, states, moves) && Enabled(s, m) && states[0] == Next(hashOf, s, m)
    ensures IsRun(hashOf, [s] + states, [m] + moves)
  {
    var a, b := [s] + states, [m] + moves;
    forall k | 0 <= k < |b| ensures Enabled(a[k], b[k]) && a[k + 1] == Next(hashOf, a[k], b[k]) {
      assert k > 0 ==> b[k] == moves[k - 1] && a[k] == states[k - 1] && a[k + 1] == states[k];
    }
  }

  lemma {:induction false} Concat(hashOf: seq<Item> -> string, states: seq<State>, moves: seq<Move>,
                                  more: seq<State>, rest: seq<Move>)
    requires IsRun(hashOf, states, moves) && IsRun(hashOf, more, rest) && more[0] == states[|moves|]
    ensures IsRun(hashOf, states + more[1..], moves + rest)
  {
    var a, b, n := states + more[1..], moves + rest, |moves|;
    forall k | 0 <= k < |b| ensures Enabled(a[k], b[k]) && a[k + 1] == Next(hashOf, a[k], b[k]) {
      if k < n {
        assert b[k] == moves[k] && a[k] == states[k] && a[k + 1] == states[k + 1];
      } else {
        assert b[k] == rest[k - n] && a[k] == more[k - n] && a[k + 1] == more[k - n + 1];
      }
    }
  }

  /** Moves of the main loop alone: fetching, sending, and beginning a full refresh. */
  predicate LoopMove(m: Move) {
    m.Fetch? || m.Emit? || m.SendSnapshot? || m == BeginRefresh(true)
  }

  /** Any run, finished by the main loop alone. */
  lemma {:induction false} RunToIdle(hashOf: seq<Item> -> string, states: seq<State>, moves: seq<Move>)
    returns (states': seq<State>, moves': seq<Move>)
    requires Faithful(hashOf) && IsRun(hashOf, states, moves) && Begun(states[0])
    ensures IsRun(hashOf, states', moves') && states <= states' && moves <= moves' && states'[|moves'|].task.Idle?
    ensures forall i :: |moves| <= i < |moves'| ==> LoopMove(moves'[i])
  {
    RunsAreSafe(hashOf, states, moves, |moves|);
    var more, rest := FinishTask(hashOf, states[|moves|]);
    states', moves' := states + more[1..], moves + rest;
    Concat(hashOf, states, moves, more, rest);
    if |rest| == 0 {
      assert states' == states;
    }
  }

  /** A run that ends idle with something subscribed, and one more move: a full refresh begins. */
  lemma {:induction false} BeginFull(hashOf: seq<Item> -> string, states: seq<State>, moves: seq<Move>)
    returns (states': seq<State>, moves': seq<Move>)
    requires IsRun(hashOf, states, moves) && Enabled(states[|moves|], BeginRefresh(true))
    ensures IsRun(hashOf, states', moves') && states <= states'
    ensures moves' == moves + [BeginRefresh(true)]
  {
    var s := states[|moves|];
    var step := [s, Next(hashOf, s, BeginRefresh(true))];
    states', moves' := states + step[1..], moves + [BeginRefresh(true)];
    Concat(hashOf, states, moves, step, [BeginRefresh(true)]);
  }

  /** From an idle state with something subscribed: a full refresh, and what it takes to finish it. */
  lemma {:induction false} RefreshAll(hashOf: seq<Item> -> string, states: seq<State>, moves: seq<Move>,
                                      at: nat, names: set<Name>)
    returns (states': seq<State>, moves': seq<Move>)
    requires Faithful(hashOf) && IsRun(hashOf, states, moves) && Begun(states[0])
    requires LastSubscription(moves, at, |moves|, names) && Enabled(states[|moves|], BeginRefresh(true))
    ensures IsRun(hashOf, states', moves') && states <= states' && moves <= moves'
    ensures forall i :: |moves| <= i < |moves'| ==> LoopMove(moves'[i])
    ensures UpToDate(states'[|moves'|], states[0].db, moves', names)
  {
    var n := |moves|;
    var a, b := BeginFull(hashOf, states, moves);
    states', moves' := RunToIdle(hashOf, a, b);
    assert moves'[n] == b[n] == BeginRefresh(true) && forall i :: 0 <= i < n ==> moves'[i] == moves[i];
    assert moves'[..|moves'|] == moves';
    FullRefreshConverges(hashOf, states', moves', n, at, |moves'|, names);
  }

  lemma {:induction false} NothingToServe(hashOf: seq<Item> -> string, states: seq<State>, moves: seq<Move>,
                                          at: nat, names: set<Name>)
    requires Faithful(hashOf) && IsRun(hashOf, states, moves) && Begun(states[0])
    requires LastSubscription(moves, at, |moves|, names) && states[|moves|].task.Idle?
    requires states[|moves|].subscribed == {}
    ensures UpToDate(states[|moves|], states[0].db, moves, names)
  {
    assert moves[..|moves|] == moves && Converged(states[|moves|]);
    ConvergedIsUpToDate(hashOf, states, moves, at, |moves|, names);
  }

  /**
   From every reachable state of a connection that subscribed, the main loop can, by itself, bring the client
   to hold exactly what was last written to the channels it subscribed to.
   */
  lemma {:induction false} CanCatchUp(hashOf: seq<Item> -> string, states: seq<State>, moves: seq<Move>,
                                      at: nat, names: set<Name>)
    returns (states': seq<State>, moves': seq<Move>)
    requires Faithful(hashOf) && IsRun(hashOf, states, moves) && Begun(states[0])
    requires LastSubscription(moves, at, |moves|, names)
    ensures IsRun(hashOf, states', moves') && states <= states' && moves <= moves'
    ensures forall i :: |moves| <= i < |moves'| ==> LoopMove(moves'[i])
    ensures UpToDate(states'[|moves'|], states[0].db, moves', names)
  {
    var a, b := RunToIdle(hashOf, states, moves);
    assert LastSubscription(b, at, |b|, names);
    if a[|b|].subscribed == {} {
      states', moves' := a, b;
      NothingToServe(hashOf, a, b, at, names);
    } else {
      states', moves' := RefreshAll(hashOf, a, b, at, names);
      LoopMoves(moves, b, moves');
    }
  }

  lemma {:induction false} LoopMoves(a: seq<Move>, b: seq<Move>, c: seq<Move>)
    requires a <= b <= c && forall i :: |a| <= i < |b| ==> LoopMove(b[i])
    requires forall i :: |b| <= i < |c| ==> LoopMove(c[i])
    ensures forall i :: |a| <= i < |c| ==> LoopMove(c[i])
  {
    assert forall i :: 0 <= i < |b| ==> c[i] == b[i];
  }
}
