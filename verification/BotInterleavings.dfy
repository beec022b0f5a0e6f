/**
 Order pipelines racing each other, the lifecycle handlers, and writers that do not take the state lock
 (ib_trader/bots/runtime.py, _run_pipeline, _apply_position_event and _write_state). A pipeline reads the state,
 then passes the gate, then waits for the engine, then records the order's id or rolls back. An unlocked writer
 reads the whole document and later writes it back whole, some fields changed, with the state it read. Between
 any two of those steps anything else may run. A handler is one step, as the state lock makes it.
 */
module BotInterleavings {
  import opened Wrappers
  import opened BotLifecycle

  /** One order on its way: not started, state read, order sent, engine answered, finished, or refused at the gate. */
  datatype Pipe =
    | Ready(isExit: bool, symbol: string, qty: real)
    | Checked(isExit: bool, symbol: string, qty: real, prior: Status)
    | Sent(prior: Status)
    | Answered(id: string)
    | Failed(prior: Status)
    | Finished
    | Refused

  /**
   `held` are documents read without the lock and still to be written back. `accepted` counts gate passes,
   `left` steps that leave an order-placed state, `entered` unlocked writes that enter one.
   */
  datatype System = System(doc: Doc, pipes: seq<Pipe>, held: seq<Option<Doc>>, accepted: nat, left: nat, entered: nat)

  datatype Move =
    | ReadState(who: nat)
    | PassGate(who: nat, serial: Option<int>)
    | EngineAnswers(who: nat, id: Option<string>)
    | RecordId(who: nat)
    | RollBack(who: nat)
    | Handle(event: Event)
    | ReadUnlocked(who: nat)
    | WriteBack(who: nat, doc: Doc)

  predicate Enabled(s: System, m: Move) {
    match m
    case ReadState(i) => i < |s.pipes| && s.pipes[i].Ready?
    case PassGate(i, _) => i < |s.pipes| && s.pipes[i].Checked?
    case EngineAnswers(i, _) => i < |s.pipes| && s.pipes[i].Sent?
    case RecordId(i) => i < |s.pipes| && s.pipes[i].Answered?
    case RollBack(i) => i < |s.pipes| && s.pipes[i].Failed?
    case Handle(_) => true
    case ReadUnlocked(i) => i < |s.held|
    case WriteBack(i, doc) => i < |s.held| && s.held[i].Some? && doc.state == s.held[i].value.state
  }

  predicate Awaiting(s: Status) {
    s == AwaitingEntry || s == AwaitingExit
  }

  /** The document, and a count of steps that leave an order-placed state. */
  function Write(s: System, doc: Doc): System {
    s.(doc := doc, left := s.left + if Placed(s.doc.state) && !Placed(doc.state) then 1 else 0)
  }

  function Next(cfg: Config, s: System, m: Move): System
    requires Enabled(s, m)
  {
    match m
    case ReadState(i) =>
      var p := s.pipes[i];
      s.(pipes := s.pipes[i := Checked(p.isExit, p.symbol, p.qty, s.doc.state)])
    case PassGate(i, serial) =>
      var p := s.pipes[i];
      (match Gate(s.doc, p.isExit, p.symbol, p.qty, Some(PENDING_ID), if p.isExit then None else serial)
       case None => s.(pipes := s.pipes[i := Refused])
       case Some(doc) => Write(s, doc).(pipes := s.pipes[i := Sent(p.prior)], accepted := s.accepted + 1))
    case EngineAnswers(i, id) =>
      s.(pipes := s.pipes[i := if id.Some? then Answered(id.value) else Failed(s.pipes[i].prior)])
    case RecordId(i) => Write(s, PatchId(s.doc, s.pipes[i].id)).(pipes := s.pipes[i := Finished])
    case RollBack(i) =>
      var prior := s.pipes[i].prior;
      Write(s, if Awaiting(prior) then Revert(s.doc, prior) else s.doc).(pipes := s.pipes[i := Finished])
    case Handle(e) => Write(s, On(cfg, s.doc, e).doc)
    case ReadUnlocked(i) => s.(held := s.held[i := Some(s.doc)])
    case WriteBack(i, doc) =>
      Write(s, doc).(held := s.held[i := None],
                     entered := s.entered + if !Placed(s.doc.state) && Placed(doc.state) then 1 else 0)
  }

  /** A run: the states visited, each following from the one before by an enabled move. */
  ghost predicate IsRun(cfg: Config, states: seq<System>, moves: seq<Move>) {
    && |states| == |moves| + 1
    && forall k :: 0 <= k < |moves| ==> Enabled(states[k], moves[k]) && states[k + 1] == Next(cfg, states[k], moves[k])
  }

  /** Nothing accepted yet and no order placed. */
  ghost predicate Initial(s: System) {
    && s.accepted == 0 && s.left == 0 && s.entered == 0 && !Placed(s.doc.state)
    && forall i :: 0 <= i < |s.pipes| ==> s.pipes[i].Ready?
  }

  function SentOff(p: Pipe): nat {
    if p.Sent? || p.Answered? || p.Failed? || p.Finished? then 1 else 0
  }

  /** Pipelines that have reached the engine. */
  function Reached(pipes: seq<Pipe>): nat {
    if |pipes| == 0 then 0 else Reached(pipes[..|pipes| - 1]) + SentOff(pipes[|pipes| - 1])
  }

  function InFlight(s: System): nat {
    if Placed(s.doc.state) then 1 else 0
  }

  /** Every way into an order-placed state is matched by one out of it, or the bot is in it. */
  ghost predicate Counted(s: System) {
    s.accepted + s.entered == s.left + InFlight(s) && s.accepted == Reached(s.pipes)
  }

  lemma {:induction false} ReachedUpdate(pipes: seq<Pipe>, i: nat, p: Pipe)
    requires i < |pipes|
    ensures Reached(pipes[i := p]) == Reached(pipes) - SentOff(pipes[i]) + SentOff(p)
  {
    var n := |pipes| - 1;
    if i < n {
      assert pipes[i := p][..n] == pipes[..n][i := p];
      ReachedUpdate(pipes[..n], i, p);
    } else {
      assert pipes[i := p][..n] == pipes[..n];
    }
  }

  lemma {:induction false} NextCounts(cfg: Config, s: System, m: Move)
    requires s.accepted == Reached(s.pipes) && Enabled(s, m)
    ensures Next(cfg, s, m).accepted == Reached(Next(cfg, s, m).pipes)
  {
    match m
    case ReadState(i) => ReachedUpdate(s.pipes, i, Next(cfg, s, m).pipes[i]);
    case PassGate(i, _) => ReachedUpdate(s.pipes, i, Next(cfg, s, m).pipes[i]);
    case EngineAnswers(i, _) => ReachedUpdate(s.pipes, i, Next(cfg, s, m).pipes[i]);
    case RecordId(i) => ReachedUpdate(s.pipes, i, Finished);
    case RollBack(i) => ReachedUpdate(s.pipes, i, Finished);
    case Handle(e) =>
    case ReadUnlocked(_) =>
    case WriteBack(_, _) =>
  }

  lemma {:induction false} NeverPlaces(cfg: Config, doc: Doc, e: Event)
    requires Placed(On(cfg, doc, e).doc.state)
    ensures Placed(doc.state)
  {
  }

  lemma {:induction false} NextIsCounted(cfg: Config, s: System, m: Move)
    requires Counted(s) && Enabled(s, m)
    ensures Counted(Next(cfg, s, m))
  {
    NextCounts(cfg, s, m);
    if m.Handle? && Placed(On(cfg, s.doc, m.event).doc.state) {
      NeverPlaces(cfg, s.doc, m.event);
    }
  }

  lemma {:induction false} NoneReached(pipes: seq<Pipe>)
    requires forall i :: 0 <= i < |pipes| ==> pipes[i].Ready?
    ensures Reached(pipes) == 0
  {
    if |pipes| > 0 {
      NoneReached(pipes[..|pipes| - 1]);
    }
  }

  lemma {:induction false} RunsAreCounted(cfg: Config, states: seq<System>, moves: seq<Move>, k: nat)
    requires IsRun(cfg, states, moves) && Initial(states[0]) && k < |states|
    ensures Counted(states[k])
  {
    if k == 0 {
      NoneReached(states[0].pipes);
    } else {
      RunsAreCounted(cfg, states, moves, k - 1);
      NextIsCounted(cfg, states[k - 1], moves[k - 1]);
    }
  }

  /**
   In every interleaving the pipelines past the gate are the accepted placements, and these less the steps
   that left an order-placed state are one in such a state and none outside, exactly when no unlocked write
   ever entered one.
   */
  lemma {:induction false} RunsAreSafe(cfg: Config, states: seq<System>, moves: seq<Move>, k: nat)
    requires IsRun(cfg, states, moves) && Initial(states[0]) && k < |states|
    ensures var s := states[k];
            && s.accepted == Reached(s.pipes)
            && (s.accepted == s.left + InFlight(s) <==> s.entered == 0)
  {
    RunsAreCounted(cfg, states, moves, k);
  }

  /**
   Racing pipelines: as long as no step leaves an order-placed state, be it by an unlocked write, at most one
   more pipeline reaches the engine, whatever state each of them read beforehand, and none while an order is
   placed.
   */
  lemma {:induction false} AtMostOneReachesEngine(cfg: Config, states: seq<System>, moves: seq<Move>, i: nat, j: nat)
    requires IsRun(cfg, states, moves) && Initial(states[0]) && i <= j < |states|
    requires states[j].left == states[i].left
    ensures Reached(states[i].pipes) <= Reached(states[j].pipes) <= Reached(states[i].pipes) + 1
    ensures Placed(states[i].doc.state) ==> Reached(states[j].pipes) == Reached(states[i].pipes)
  {
    RunsAreCounted(cfg, states, moves, i);
    RunsAreCounted(cfg, states, moves, j);
    AcceptedGrows(cfg, states, moves, i, j);
  }

  lemma {:induction false} AcceptedGrows(cfg: Config, states: seq<System>, moves: seq<Move>, i: nat, j: nat)
    requires IsRun(cfg, states, moves) && i <= j < |states|
    ensures states[i].accepted <= states[j].accepted && states[i].entered <= states[j].entered
    decreases j - i
  {
    if i < j {
      AcceptedGrows(cfg, states, moves, i, j - 1);
      var s := Next(cfg, states[j - 1], moves[j - 1]);
    }
  }

  // ---- What a step can begin or revive -----------------------------------------------------

  /** A rollback to a state read while the bot waited for a trigger. */
  predicate RollsBackTo(s: System, m: Move, prior: Status) {
    m.RollBack? && m.who < |s.pipes| && s.pipes[m.who].Failed? && s.pipes[m.who].prior == prior
  }

  /** An unlocked write of a document that was read in the given state. */
  predicate WritesBack(s: System, m: Move, read: Status) {
    m.WriteBack? && m.who < |s.held| && s.held[m.who].Some? && s.held[m.who].value.state == read
  }

  /** A rollback to a waiting state, or an unlocked write of a document read while the bot was running. */
  predicate Revives(s: System, m: Move) {
    || RollsBackTo(s, m, AwaitingEntry) || RollsBackTo(s, m, AwaitingExit)
    || (m.WriteBack? && m.who < |s.held| && s.held[m.who].Some? && !Halted(s.held[m.who].value.state))
  }

  /** The step is a terminal, nonempty entry fill that the entry handler takes. */
  predicate EntersPosition(s: System, m: Move) {
    && m.Handle? && m.event.EntryFilled? && (s.doc.state == EntryPlaced || s.doc.state == AwaitingEntry)
    && m.event.entry.terminal && m.event.entry.qty != 0.0
  }

  predicate CancelsExit(s: System, m: Move) {
    m == Handle(ExitCancelled) && s.doc.state == ExitPlaced
  }

  /**
   Exactly these steps begin to wait for an exit: an entry fill, a cancelled exit, and two that no state
   stops, a rollback to that state and an unlocked write of a document read in it.
   */
  lemma {:induction false} BeginsToWait(cfg: Config, s: System, m: Move)
    requires Enabled(s, m) && s.doc.state != AwaitingExit
    ensures Next(cfg, s, m).doc.state == AwaitingExit
       <==> || EntersPosition(s, m) || CancelsExit(s, m)
            || RollsBackTo(s, m, AwaitingExit) || WritesBack(s, m, AwaitingExit)
  {
    match m
    case Handle(e) => HandlerBeginsToWait(cfg, s, e);
    case _ =>
  }

  lemma {:induction false} HandlerBeginsToWait(cfg: Config, s: System, e: Event)
    requires s.doc.state != AwaitingExit
    ensures On(cfg, s.doc, e).doc.state == AwaitingExit <==> EntersPosition(s, Handle(e)) || CancelsExit(s, Handle(e))
  {
  }

  /**
   Of the locked steps only the entry fill records a new position, and one that begins to wait for an entry
   leaves none; so does an unlocked write exactly when what it writes holds nothing.
   */
  lemma {:induction false} OnlyFillsEnter(cfg: Config, s: System, m: Move)
    requires Enabled(s, m)
    ensures var d := Next(cfg, s, m).doc;
            && (EntersPosition(s, m) ==> d.qty == m.event.entry.qty && d.entryPrice == Some(m.event.entry.price))
            && (CancelsExit(s, m) || RollsBackTo(s, m, AwaitingExit) ==>
                  d.qty == s.doc.qty && d.entryPrice == s.doc.entryPrice)
            && (s.doc.state != AwaitingEntry && d.state == AwaitingEntry ==>
                  (HoldsNothing(d) <==> (m.WriteBack? ==> HoldsNothing(m.doc))))
  {
    if m.Handle? && s.doc.state != AwaitingEntry && On(cfg, s.doc, m.event).doc.state == AwaitingEntry {
      HandlerLeavesNone(cfg, s.doc, m.event);
    }
  }

  lemma {:induction false} HandlerLeavesNone(cfg: Config, doc: Doc, e: Event)
    requires doc.state != AwaitingEntry && On(cfg, doc, e).doc.state == AwaitingEntry
    ensures HoldsNothing(On(cfg, doc, e).doc)
  {
  }

  /** A halted bot is revived by a start, by a pipeline that rolls back, or by an unlocked write; by nothing else. */
  lemma {:induction false} StaysHalted(cfg: Config, s: System, m: Move)
    requires Enabled(s, m) && Halted(s.doc.state)
    ensures Halted(Next(cfg, s, m).doc.state) <==> !(m.Handle? && m.event.Start?) && !Revives(s, m)
  {
  }

  /**
   Over any run without a start, a halted bot stays halted exactly when no pipeline rolls back to a waiting
   state and no unlocked write puts back a document read while the bot was running.
   */
  lemma {:induction false} HaltedUntilRevived(cfg: Config, states: seq<System>, moves: seq<Move>, i: nat, j: nat)
    requires IsRun(cfg, states, moves) && i <= j < |states| && Halted(states[i].doc.state)
    requires forall k :: i <= k < j ==> !(moves[k].Handle? && moves[k].event.Start?)
    ensures (forall k :: i <= k <= j ==> Halted(states[k].doc.state))
       <==> (forall k :: i <= k < j ==> !Revives(states[k], moves[k]))
    decreases j
  {
    if i < j {
      HaltedUntilRevived(cfg, states, moves, i, j - 1);
      assert Enabled(states[j - 1], moves[j - 1]) && states[j] == Next(cfg, states[j - 1], moves[j - 1]);
      if Halted(states[j - 1].doc.state) {
        StaysHalted(cfg, states[j - 1], moves[j - 1]);
        assert Halted(states[j].doc.state) <==> !Revives(states[j - 1], moves[j - 1]);
      }
    }
  }

  // ---- Off means clean for a start -----------------------------------------------------

  predicate CleanWhenOff(s: System) {
    s.doc.state == Off ==> CleanForStart(s.doc)
  }

  /** An unlocked write of an off document that is not clean. */
  predicate Dirties(m: Move) {
    m.WriteBack? && m.doc.state == Off && !CleanForStart(m.doc)
  }

  lemma {:induction false} StaysClean(cfg: Config, s: System, m: Move)
    requires Enabled(s, m) && CleanWhenOff(s)
    ensures CleanWhenOff(Next(cfg, s, m)) <==> !Dirties(m)
  {
    if m.Handle? {
      HandlersNeverPlace(cfg, s.doc, m.event);
    }
  }

  /** Over any run, an off document is clean for a start at every point exactly when no unlocked write dirties one. */
  lemma {:induction false} OffIsCleanExactly(cfg: Config, states: seq<System>, moves: seq<Move>, i: nat, j: nat)
    requires IsRun(cfg, states, moves) && i <= j < |states| && CleanWhenOff(states[i])
    ensures (forall k :: i <= k <= j ==> CleanWhenOff(states[k])) <==> (forall k :: i <= k < j ==> !Dirties(moves[k]))
    decreases j
  {
    if i < j {
      OffIsCleanExactly(cfg, states, moves, i, j - 1);
      assert Enabled(states[j - 1], moves[j - 1]) && states[j] == Next(cfg, states[j - 1], moves[j - 1]);
      if CleanWhenOff(states[j - 1]) {
        StaysClean(cfg, states[j - 1], moves[j - 1]);
        assert CleanWhenOff(states[j]) <==> !Dirties(moves[j - 1]);
      }
    }
  }

  // ---- A position event overtaken ------------------------------------------------------

  /** The moves of a position event that is overtaken by another event while it waits for the broker. */
  function OvertakenBy(e: Event, doc: Doc, verified: real): seq<Move> {
    [ReadUnlocked(0), Handle(e), WriteBack(0, PositionWrite(doc, verified))]
  }

  /**
   A stop, a crash or any other halt while a position event waits for the broker's book is undone: the event
   writes the document back as it had read it, with the verified quantity.
   */
  lemma {:induction false} PositionWriteRevives(cfg: Config, s: System, e: Event, ibQty: real, verified: real)
    requires |s.held| == 1 && Verdict(s.doc, ibQty, Some(verified)) == Reduce(verified)
    requires e == Stop || e == ForceStop || e == Crash || e == PositionMismatch
    ensures exists states: seq<System> ::
              && IsRun(cfg, states, OvertakenBy(e, s.doc, verified)) && states[0] == s
              && Halted(states[2].doc.state)
              && states[3].doc == PositionWrite(s.doc, verified) && !Halted(states[3].doc.state)
  {
    var a := Next(cfg, s, ReadUnlocked(0));
    var b := Next(cfg, a, Handle(e));
    var c := Next(cfg, b, WriteBack(0, PositionWrite(s.doc, verified)));
    var states := [s, a, b, c];
    assert IsRun(cfg, states, OvertakenBy(e, s.doc, verified));
    assert states[0] == s && states[2] == b && states[3] == c;
  }

  /** The moves of two exits, the first of which is forgotten by a position event before the second starts. */
  function ForgottenExit(doc: Doc, verified: real): seq<Move> {
    [ReadUnlocked(0), ReadState(0), PassGate(0, None), WriteBack(0, PositionWrite(doc, verified)), ReadState(1),
     PassGate(1, None)]
  }

  /** An exit placed while a position event waits for the broker is forgotten, and a second one passes the gate. */
  lemma {:induction false} PositionWriteAdmitsSecond(cfg: Config, s: System, ibQty: real, verified: real)
    requires s.doc.state == AwaitingExit && |s.held| == 1
    requires Verdict(s.doc, ibQty, Some(verified)) == Reduce(verified)
    requires |s.pipes| == 2 && forall i :: 0 <= i < 2 ==> s.pipes[i].Ready? && s.pipes[i].isExit
    ensures exists states: seq<System> ::
              && IsRun(cfg, states, ForgottenExit(s.doc, verified)) && states[0] == s
              && states[6].accepted == s.accepted + 2 && states[6].pipes == [Sent(AwaitingExit), Sent(AwaitingExit)]
  {
    var states := [s, Next(cfg, s, ReadUnlocked(0))] + ExitAndForget(cfg, s, verified);
    assert IsRun(cfg, states, ForgottenExit(s.doc, verified));
  }

  ghost function ExitAndForget(cfg: Config, s: System, verified: real): (r: seq<System>)
    requires s.doc.state == AwaitingExit && |s.held| == 1
    requires |s.pipes| == 2 && forall i :: 0 <= i < 2 ==> s.pipes[i].Ready? && s.pipes[i].isExit
    ensures var a := Next(cfg, s, ReadUnlocked(0));
            && |r| == 5 && Enabled(a, ReadState(0)) && r[0] == Next(cfg, a, ReadState(0))
            && Enabled(r[0], PassGate(0, None)) && r[1] == Next(cfg, r[0], PassGate(0, None))
            && Enabled(r[1], WriteBack(0, PositionWrite(s.doc, verified)))
            && r[2] == Next(cfg, r[1], WriteBack(0, PositionWrite(s.doc, verified)))
            && Enabled(r[2], ReadState(1)) && r[3] == Next(cfg, r[2], ReadState(1))
            && Enabled(r[3], PassGate(1, None)) && r[4] == Next(cfg, r[3], PassGate(1, None))
            && r[4].accepted == s.accepted + 2 && r[4].pipes == [Sent(AwaitingExit), Sent(AwaitingExit)]
  {
    var a := Next(cfg, s, ReadUnlocked(0));
    var b := Next(cfg, a, ReadState(0));
    var c := Next(cfg, b, PassGate(0, None));
    var d := Next(cfg, c, WriteBack(0, PositionWrite(s.doc, verified)));
    var e := Next(cfg, d, ReadState(1));
    [b, c, d, e, Next(cfg, e, PassGate(1, None))]
  }

  /** An exit that ends while a position event waits is placed again by its write: no pipeline passed the gate. */
  lemma {:induction false} PositionWriteEnters(cfg: Config, s: System, ibQty: real, verified: real)
    requires s.doc.state == ExitPlaced && |s.held| == 1
    requires Verdict(s.doc, ibQty, Some(verified)) == Reduce(verified)
    ensures exists states: seq<System> ::
              && IsRun(cfg, states, OvertakenBy(ExitCancelled, s.doc, verified)) && states[0] == s
              && states[2].doc.state == AwaitingExit && states[3].doc.state == ExitPlaced
              && states[3].accepted == s.accepted && states[3].entered == s.entered + 1
  {
    var a := Next(cfg, s, ReadUnlocked(0));
    var b := Next(cfg, a, Handle(ExitCancelled));
    var c := Next(cfg, b, WriteBack(0, PositionWrite(s.doc, verified)));
    var states := [s, a, b, c];
    assert IsRun(cfg, states, OvertakenBy(ExitCancelled, s.doc, verified));
    assert states[0] == s && states[2] == b && states[3] == c;
  }

  // ---- A pipeline that fails -------------------------------------------------------------

  /** The moves of one pipeline that gets no answer and rolls back, with nothing in between. */
  function Unanswered(serial: Option<int>): seq<Move> {
    [ReadState(0), PassGate(0, serial), EngineAnswers(0, None), RollBack(0)]
  }

  /** A pipeline that fails undisturbed leaves what a rollback leaves, and the gate open for the next try. */
  lemma {:induction false} FailedOrderRestores(cfg: Config, s: System, symbol: string, qty: real, serial: Option<int>)
    requires Awaiting(s.doc.state) && s.pipes == [Ready(s.doc.state == AwaitingExit, symbol, qty)]
    ensures exists states: seq<System> ::
              && IsRun(cfg, states, Unanswered(serial)) && states[0] == s
              && states[4].doc == RolledBack(s.doc, symbol) && states[4].doc.state == s.doc.state
              && states[4].accepted == s.accepted + 1 && states[4].left == s.left + 1
  {
    var isExit := s.doc.state == AwaitingExit;
    RollBackRestores(s.doc, symbol, qty, if isExit then None else serial);
    var a := Next(cfg, s, ReadState(0));
    var b := Next(cfg, a, PassGate(0, serial));
    var c := Next(cfg, b, EngineAnswers(0, None));
    var d := Next(cfg, c, RollBack(0));
    var states := [s, a, b, c, d];
    assert IsRun(cfg, states, Unanswered(serial));
    assert states[0] == s && states[4] == d;
  }

  /** The moves of one pipeline whose order the engine takes, with nothing in between. */
  function AnsweredWith(serial: Option<int>, id: string): seq<Move> {
    [ReadState(0), PassGate(0, serial), EngineAnswers(0, Some(id)), RecordId(0)]
  }

  /** An order that is taken leaves the bot waiting for its fill, with the order's quantity and its id. */
  lemma {:induction false} TakenOrderIsRecorded(cfg: Config, s: System, symbol: string, qty: real, serial: Option<int>,
                                                id: string)
    requires Awaiting(s.doc.state) && s.pipes == [Ready(s.doc.state == AwaitingExit, symbol, qty)]
    ensures exists states: seq<System> ::
              && IsRun(cfg, states, AnsweredWith(serial, id)) && states[0] == s
              && states[4].doc.state == (if s.doc.state == AwaitingExit then ExitPlaced else EntryPlaced)
              && states[4].doc.orderQty == Some(qty) && states[4].doc.qty == s.doc.qty
              && states[4].doc.ibOrderId == states[4].doc.awaitingId == Some(id) && states[4].pipes == [Finished]
  {
    var a := Next(cfg, s, ReadState(0));
    var b := Next(cfg, a, PassGate(0, serial));
    var c := Next(cfg, b, EngineAnswers(0, Some(id)));
    var d := Next(cfg, c, RecordId(0));
    var states := [s, a, b, c, d];
    assert IsRun(cfg, states, AnsweredWith(serial, id));
    assert states[0] == s && states[4] == d;
  }

  /** The moves of an exit whose pipeline read the state while another exit was placed, which then is cancelled. */
  function ReadTooEarly(): seq<Move> {
    [ReadState(0), Handle(ExitCancelled), PassGate(0, None), EngineAnswers(0, None), RollBack(0)]
  }

  /**
   Such a pipeline passes the gate, but when its order fails it does not roll back, because the state it read is
   not one to wait in: the bot goes on waiting for the fill of an order that no engine has.
   */
  lemma {:induction false} StaleReadSticks(cfg: Config, s: System, symbol: string, qty: real)
    requires s.doc.state == ExitPlaced && s.pipes == [Ready(true, symbol, qty)]
    ensures exists states: seq<System> ::
              && IsRun(cfg, states, ReadTooEarly()) && states[0] == s
              && states[2].doc.state == AwaitingExit
              && states[5].doc.state == ExitPlaced && states[5].doc.orderQty == Some(qty)
              && states[5].doc.ibOrderId == Some("__pending__") && states[5].pipes == [Finished]
  {
    var a := Next(cfg, s, ReadState(0));
    var b := Next(cfg, a, Handle(ExitCancelled));
    var c := Next(cfg, b, PassGate(0, None));
    var d := Next(cfg, c, EngineAnswers(0, None));
    var e := Next(cfg, d, RollBack(0));
    var states := [s, a, b, c, d, e];
    assert IsRun(cfg, states, ReadTooEarly());
    assert states[0] == s && states[2] == b && states[5] == e;
  }

  /** The moves of one pipeline that is stopped while the engine works on its order, and then gets no answer. */
  function StoppedInFlight(): seq<Move> {
    [ReadState(0), PassGate(0, None), Handle(Stop), EngineAnswers(0, None), RollBack(0)]
  }

  /**
   That run revives a stopped bot: from any waiting state it ends in the same waiting state, with an
   exit's position gone.
   */
  lemma {:induction false} RollBackRevives(cfg: Config, s: System, symbol: string, qty: real)
    requires Awaiting(s.doc.state) && s.pipes == [Ready(s.doc.state == AwaitingExit, symbol, qty)]
    ensures exists states: seq<System> ::
              && IsRun(cfg, states, StoppedInFlight()) && states[0] == s
              && states[3].doc.state == Off && CleanForStart(states[3].doc)
              && states[5].doc.state == s.doc.state && HoldsNothing(states[5].doc)
  {
    var a := SendOff(cfg, s);
    var states := [s, a.0, a.1] + GiveUp(cfg, a.1);
    assert IsRun(cfg, states, StoppedInFlight());
  }

  /** The first two moves of that run: the order passes the gate. */
  ghost function SendOff(cfg: Config, s: System): (r: (System, System))
    requires Awaiting(s.doc.state) && |s.pipes| == 1 && s.pipes[0].Ready?
    requires s.pipes[0].isExit == (s.doc.state == AwaitingExit)
    ensures Enabled(r.0, PassGate(0, None))
    ensures r.0 == Next(cfg, s, ReadState(0)) && r.1 == Next(cfg, r.0, PassGate(0, None))
    ensures r.1.pipes == [Sent(s.doc.state)] && Placed(r.1.doc.state)
  {
    var a := Next(cfg, s, ReadState(0));
    (a, Next(cfg, a, PassGate(0, None)))
  }

  /** The last three: it is stopped, unanswered, and rolled back. */
  ghost function GiveUp(cfg: Config, b: System): (r: seq<System>)
    requires |b.pipes| == 1 && b.pipes[0].Sent? && Awaiting(b.pipes[0].prior) && Placed(b.doc.state)
    ensures |r| == 3 && r[0] == Next(cfg, b, Handle(Stop))
    ensures Enabled(r[0], EngineAnswers(0, None)) && r[1] == Next(cfg, r[0], EngineAnswers(0, None))
    ensures Enabled(r[1], RollBack(0)) && r[2] == Next(cfg, r[1], RollBack(0))
    ensures r[0].doc.state == Off && CleanForStart(r[0].doc)
    ensures r[2].doc.state == b.pipes[0].prior && HoldsNothing(r[2].doc)
  {
    var c := Next(cfg, b, Handle(Stop));
    var d := Next(cfg, c, EngineAnswers(0, None));
    [c, d, Next(cfg, d, RollBack(0))]
  }

  // ---- The bookkeeping after an entry fill ----------------------------------------------

  /** The bookkeeping after a terminal entry fill; entry anchors already set are kept. */
  function EntryFillWrite(doc: Doc, f: Report): Doc {
    doc.(qty := f.qty, avgPrice := Some(f.price),
         entryPrice := if doc.entryTimed then doc.entryPrice else Some(f.price), entryTimed := true,
         direction := Some(if f.side == Buy then Long else Short))
  }

  /**
   That write runs without the lock. It keeps "off means clean for a start" exactly when the bot is not
   off by then, or the fill is empty and an entry time is left over.
   */
  lemma {:induction false} LateWriteKeepsClean(doc: Doc, f: Report)
    requires doc.state == Off ==> CleanForStart(doc)
    ensures (EntryFillWrite(doc, f).state == Off ==> CleanForStart(EntryFillWrite(doc, f)))
       <==> doc.state != Off || (doc.entryTimed && f.qty == 0.0)
  {
  }

  /** A stop between a terminal entry fill and its bookkeeping leaves an off document that a start refuses. */
  lemma {:induction false} StopBeforeBookkeeping(cfg: Config, doc: Doc, f: Report)
    requires doc.state == EntryPlaced && f.terminal && f.qty > 0.0
    ensures var filled := On(cfg, doc, EntryFilled(f)).doc;
            var stopped := On(cfg, filled, Stop).doc;
            var late := EntryFillWrite(stopped, f);
            filled.state == AwaitingExit && CleanForStart(stopped) && late.state == Off && !CleanForStart(late)
  {
  }
}
