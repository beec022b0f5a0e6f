/**
 The lifecycle handlers of a trading bot (ib_trader/bots/runtime.py, ib_trader/bots/lifecycle.py). A
 handler runs under the bot's state lock, so it is one step on the persisted document; what it does
 after releasing the lock is the list of effects it returns.
 */
module BotLifecycle {
  import opened Wrappers
  import opened Reals

  datatype Status = Off | Errored | AwaitingEntry | EntryPlaced | AwaitingExit | ExitPlaced

  datatype Side = Buy | Sell

  datatype Direction = Long | Short

  /** The lifecycle slice of the persisted document. */
  datatype Doc = Doc(
    state: Status,
    symbol: string,
    qty: real,
    orderQty: Option<real>,
    filledQty: real,
    avgPrice: Option<real>,
    entryPrice: Option<real>,
    entryTimed: bool,
    ibOrderId: Option<string>,
    awaitingId: Option<string>,
    entryIbOrderId: Option<string>,
    serial: Option<int>,
    direction: Option<Direction>,
    entryLine: Option<string>,
    exitRetries: nat,
    errorReason: Option<string>,
    lastRealized: Option<real>)

  datatype Config = Config(stopOnExit: bool, multiplier: real)

  datatype Effect =
    | CancelOrder(symbol: string)
    | Alert(trigger: string, severity: string, residual: Option<real>)
    | RetryExit(qty: real, side: Side, attempt: nat)
    | TradeClosed(pnl: real, direction: Direction, entryPrice: real, entryQty: real, exitPrice: real, exitQty: real)
    | NotifyFilled(qty: real, price: real, fillSide: Side)
    | NotifyRejected
    | RequestStop

  /** A fill report: cumulative quantity and price of one order, final or not. */
  datatype Report = Report(qty: real, price: real, terminal: bool, side: Side)

  datatype Event =
    | Start(symbol: string)
    | Stop
    | ForceStop
    | Crash
    | PositionMismatch
    | EntryTimeout
    | ManualClose
    | EntryCancelled
    | ExitCancelled
    | EntryFilled(entry: Report)
    | ExitFilled(exit: Report)
    | ForceOff(reason: Option<string>)

  datatype Outcome = Outcome(doc: Doc, effects: seq<Effect>)

  const MAX_EXIT_RETRIES := 3
  const PENDING_ID := "__pending__"

  predicate Placed(s: Status) {
    s == EntryPlaced || s == ExitPlaced
  }

  function Reset(doc: Doc): Doc {
    doc.(qty := 0.0, entryPrice := None, entryTimed := false, serial := None, ibOrderId := None, awaitingId := None,
         orderQty := None, filledQty := 0.0)
  }

  /** Every position field zeroed. */
  function Cleared(doc: Doc): Doc {
    Reset(doc).(entryLine := None, direction := None)
  }

  /** No position, and no order placed or awaited. */
  predicate HoldsNothing(doc: Doc) {
    Reset(doc) == doc
  }

  /** Off or in error: the bot does not trade. */
  predicate Halted(s: Status) {
    s == Off || s == Errored
  }

  /** The documents differ at most in state and error. */
  predicate SamePosition(a: Doc, b: Doc) {
    a.(state := Off, errorReason := None) == b.(state := Off, errorReason := None)
  }

  /** Suitable for a start: off, flat, and no order or entry left over. */
  predicate CleanForStart(doc: Doc) {
    doc.state == Off && doc.qty == 0.0 && doc.entryPrice.None? && doc.awaitingId.None? && doc.ibOrderId.None?
  }

  /** Effects that need to know the instrument. */
  function IfNamed(doc: Doc, effects: seq<Effect>): seq<Effect> {
    if doc.symbol != "" then effects else []
  }

  function MaxZero(x: real): real {
    if x >= 0.0 then x else 0.0
  }

  /** Price moved in the position's favour, times quantity and multiplier. */
  function Profit(entry: real, exit: real, qty: real, mult: real, d: Direction): real {
    if d == Long then (exit - entry) * qty * mult else (entry - exit) * qty * mult
  }

  function Recorded(doc: Doc, f: Report, mult: real, d: Direction): real {
    var entry := doc.entryPrice.GetOr(0.0);
    if entry > 0.0 then Profit(entry, f.price, doc.qty, mult, d) else 0.0
  }

  function ExitDirection(doc: Doc, side: Side): Direction {
    doc.direction.GetOr(if side == Sell then Long else Short)
  }

  function Closing(d: Direction): Side {
    if d == Long then Sell else Buy
  }

  function OnEntryFilled(doc: Doc, f: Report): Outcome {
    if doc.state != EntryPlaced && doc.state != AwaitingEntry then Outcome(doc, [])
    else if !f.terminal then Outcome(doc.(filledQty := f.qty, qty := f.qty, avgPrice := Some(f.price)), [])
    else if f.qty == 0.0 then Outcome(Cleared(doc).(state := AwaitingEntry), IfNamed(doc, [NotifyRejected]))
    else Outcome(doc.(state := AwaitingExit, filledQty := f.qty, qty := f.qty, avgPrice := Some(f.price),
                      entryPrice := Some(f.price), entryTimed := true,
                      direction := Some(if f.side == Buy then Long else Short),
                      entryIbOrderId := doc.ibOrderId),
                 IfNamed(doc, [NotifyFilled(f.qty, f.price, f.side)]))
  }

  /** The exit left nothing: record the closed trade, and stop or wait for the next entry. */
  function Flat(stopOnExit: bool, doc: Doc, f: Report, pnl: real): Outcome {
    Outcome(Cleared(doc).(state := if stopOnExit then Off else AwaitingEntry,
                          lastRealized := Some(pnl), exitRetries := 0),
            (if stopOnExit then [RequestStop] else [])
            + [TradeClosed(pnl, ExitDirection(doc, f.side), doc.entryPrice.GetOr(0.0), doc.qty, f.price, f.qty)]
            + IfNamed(doc, [NotifyFilled(f.qty, f.price, f.side)]))
  }

  /** The exit left something: send another order for it, or give up after too many. */
  function Residual(doc: Doc, f: Report, left: real): Outcome {
    if doc.exitRetries >= MAX_EXIT_RETRIES then
      Outcome(doc.(state := Errored, qty := left, errorReason := Some("exit_retries_exhausted")),
              [Alert("BOT_EXIT_RETRIES_EXHAUSTED", "CATASTROPHIC", Some(left))])
    else
      Outcome(doc.(qty := left, orderQty := Some(left), filledQty := 0.0, exitRetries := doc.exitRetries + 1),
              [RetryExit(left, Closing(ExitDirection(doc, f.side)), doc.exitRetries + 1)]
              + IfNamed(doc, [NotifyFilled(f.qty, f.price, f.side)]))
  }

  /** An exit fill, given what the trade would record if it were over. */
  function ExitStep(stopOnExit: bool, doc: Doc, f: Report, pnl: real): Outcome {
    if doc.state != ExitPlaced then Outcome(doc, [])
    else if !f.terminal then Outcome(doc.(filledQty := f.qty), [])
    else
      var left := MaxZero(doc.qty - f.qty);
      if left == 0.0 then Flat(stopOnExit, doc, f, pnl) else Residual(doc, f, left)
  }

  function ClosedPnl(cfg: Config, doc: Doc, f: Report): real {
    Recorded(doc, f, cfg.multiplier, ExitDirection(doc, f.side))
  }

  function OnExitFilled(cfg: Config, doc: Doc, f: Report): Outcome {
    ExitStep(cfg.stopOnExit, doc, f, ClosedPnl(cfg, doc, f))
  }

  /** One handler, as a step on the document. */
  function On(cfg: Config, doc: Doc, e: Event): Outcome {
    match e
    case Start(symbol) =>
      if doc.state != Off && doc.state != Errored then Outcome(doc, [])
      else Outcome(Cleared(doc).(state := AwaitingEntry, errorReason := None,
                                 symbol := if symbol != "" then symbol else doc.symbol), [])
    case Stop =>
      if doc.state == Off then Outcome(doc, [])
      else Outcome(Cleared(doc).(state := Off, errorReason := None),
                   if Placed(doc.state) then IfNamed(doc, [CancelOrder(doc.symbol)]) else [])
    case ForceStop => Outcome(doc.(state := Errored, errorReason := Some("force_stop")), [])
    case Crash =>
      if doc.state == Off || doc.state == Errored then Outcome(doc, [])
      else Outcome(doc.(state := Errored, errorReason := Some("crash")), [Alert("BOT_CRASH", "CATASTROPHIC", None)])
    case PositionMismatch =>
      if doc.state == Off || doc.state == Errored then Outcome(doc, [])
      else Outcome(doc.(state := Errored, errorReason := Some("ib_mismatch")), [])
    case EntryTimeout =>
      if doc.state != EntryPlaced then Outcome(doc, [])
      else Outcome(Reset(doc).(state := AwaitingEntry), IfNamed(doc, [CancelOrder(doc.symbol)]))
    case ManualClose =>
      if doc.state != AwaitingExit && doc.state != ExitPlaced then Outcome(doc, [])
      else Outcome(Cleared(doc).(state := AwaitingEntry), [])
    case EntryCancelled =>
      if doc.state != EntryPlaced then Outcome(doc, [])
      else Outcome(Cleared(doc).(state := AwaitingEntry), IfNamed(doc, [NotifyRejected]))
    case ExitCancelled =>
      if doc.state != ExitPlaced then Outcome(doc, [])
      else Outcome(doc.(state := AwaitingExit, orderQty := None, filledQty := 0.0), [])
    case EntryFilled(f) => OnEntryFilled(doc, f)
    case ExitFilled(f) => OnExitFilled(cfg, doc, f)
    case ForceOff(reason) => Outcome(Cleared(doc).(state := Off, errorReason := reason), [])
  }

  /** What a position event comes to, once the broker's book was asked about it. */
  datatype PositionVerdict = Ignore | Reduce(qty: real) | Park

  /** The rule for a document read before the broker was asked; None when the broker did not answer. */
  function Verdict(read: Doc, ibQty: real, verified: Option<real>): PositionVerdict {
    if read.state == Off || read.state == Errored || read.state == AwaitingEntry || Abs(ibQty) >= read.qty then Ignore
    else
      match verified
      case None => Ignore
      case Some(v) => if v == read.qty then Ignore else if v < read.qty then Reduce(v) else Park
  }

  /** The whole document as it was read, with the quantity the broker confirmed. */
  function PositionWrite(read: Doc, verified: real): Doc {
    read.(qty := verified)
  }

  /** The document after the event, when it was `doc` by the time the broker had answered. */
  function AfterPositionEvent(cfg: Config, doc: Doc, read: Doc, ibQty: real, verified: Option<real>): Doc {
    match Verdict(read, ibQty, verified)
    case Ignore => doc
    case Reduce(v) => if v == 0.0 then On(cfg, PositionWrite(read, v), ManualClose).doc else PositionWrite(read, v)
    case Park => On(cfg, doc, PositionMismatch).doc
  }

  /** What the order stream reports: a fill, partial or not, or an order that died without one. */
  datatype Update = Filled(report: Report) | Dead

  /** The event an update stands for in a state, if any. */
  function Route(state: Status, u: Update): Option<Event> {
    match u
    case Filled(f) =>
      if state == EntryPlaced || state == AwaitingEntry then Some(EntryFilled(f))
      else if state == ExitPlaced then Some(ExitFilled(f))
      else None
    case Dead =>
      if state == EntryPlaced then Some(EntryCancelled)
      else if state == ExitPlaced then Some(ExitCancelled)
      else None
  }

  function Routed(cfg: Config, doc: Doc, u: Update): Outcome {
    match Route(doc.state, u)
    case None => Outcome(doc, [])
    case Some(e) => On(cfg, doc, e)
  }

  /** The gate an entry or exit order has to pass; None refuses the order. */
  function Gate(doc: Doc, isExit: bool, symbol: string, qty: real, id: Option<string>,
                serial: Option<int>): Option<Doc> {
    if doc.state != (if isExit then AwaitingExit else AwaitingEntry) then None
    else
      var placed := doc.(orderQty := Some(qty), filledQty := 0.0, ibOrderId := if id.Some? then id else doc.ibOrderId);
      Some(if isExit then placed.(state := ExitPlaced, exitRetries := 0)
           else placed.(state := EntryPlaced, entryTimed := true, serial := if serial.Some? then serial else doc.serial,
                        symbol := if symbol != "" then symbol else doc.symbol))
  }

  /** Record the id the engine returned, unless no order is placed any more. */
  function PatchId(doc: Doc, id: string): Doc {
    if Placed(doc.state) then doc.(ibOrderId := Some(id), awaitingId := Some(id)) else doc
  }

  /** Roll back to the state read before placing. */
  function Revert(doc: Doc, prior: Status): Doc {
    var rolled := doc.(orderQty := None, filledQty := 0.0, awaitingId := None, state := prior);
    if prior == AwaitingEntry then Cleared(rolled) else rolled
  }

  /**
   What an exit report comes to, given what the trade would record if it were over: what is left of the position,
   and whether that closes the trade, pages, or is tried again.
   */
  ghost predicate ExitReport(cfg: Config, was: Doc, f: Report, pnl: real, doc: Doc, effects: seq<Effect>) {
    var left := if was.qty > f.qty then was.qty - f.qty else 0.0;
    var closes := match was.direction case Some(d) => d case None => (match f.side case Sell => Long case Buy => Short);
    var told := if was.symbol != "" then [NotifyFilled(f.qty, f.price, f.side)] else [];
    if was.state != ExitPlaced || !f.terminal then
      effects == [] && doc == if was.state == ExitPlaced then was.(filledQty := f.qty) else was
    else if left == 0.0 then
      && effects == (if cfg.stopOnExit then [RequestStop] else [])
                    + [TradeClosed(pnl, closes, was.entryPrice.GetOr(0.0), was.qty, f.price, f.qty)] + told
      && doc.state == (if cfg.stopOnExit then Off else AwaitingEntry) && HoldsNothing(doc) && doc.qty == 0.0
      && doc.lastRealized == Some(pnl) && doc.exitRetries == 0
    else if was.exitRetries >= 3 then
      && effects == [Alert("BOT_EXIT_RETRIES_EXHAUSTED", "CATASTROPHIC", Some(left))]
      && doc == was.(state := Errored, qty := left, errorReason := Some("exit_retries_exhausted"))
    else
      && effects == [RetryExit(left, match closes case Long => Sell case Short => Buy, was.exitRetries + 1)] + told
      && doc == was.(qty := left, orderQty := Some(left), filledQty := 0.0, exitRetries := was.exitRetries + 1)
  }

  lemma {:induction false} ExitReports(cfg: Config, was: Doc, f: Report, pnl: real, next: Outcome)
    requires next == ExitStep(cfg.stopOnExit, was, f, pnl)
    ensures ExitReport(cfg, was, f, pnl, next.doc, next.effects)
  {
  }

  lemma {:induction false} ProfitMeans(entry: real, exit: real, qty: real, mult: real)
    ensures Profit(entry, exit, qty, mult, Long) == (exit - entry) * qty * mult
    ensures Profit(entry, exit, qty, mult, Short) == (entry - exit) * qty * mult
  {
  }

  /** A long position gains by a rising price, a short one by a falling one, and one without entry price nothing. */
  lemma {:induction false} ClosedPnlMeans(cfg: Config, was: Doc, f: Report, entry: real)
    requires was.entryPrice == Some(entry)
    ensures var long := was.direction == Some(Long) || (was.direction.None? && f.side == Sell);
            && (entry <= 0.0 ==> ClosedPnl(cfg, was, f) == 0.0)
            && (entry > 0.0 && long ==> ClosedPnl(cfg, was, f) == (f.price - entry) * was.qty * cfg.multiplier)
            && (entry > 0.0 && !long ==> ClosedPnl(cfg, was, f) == (entry - f.price) * was.qty * cfg.multiplier)
  {
    var d := ExitDirection(was, f.side);
    ProfitMeans(entry, f.price, was.qty, cfg.multiplier);
    assert ClosedPnl(cfg, was, f) == if entry > 0.0 then Profit(entry, f.price, was.qty, cfg.multiplier, d) else 0.0;
  }

  class BotRunner {
    const cfg: Config
    var doc: Doc
    var stopRequested: bool

    constructor (cfg: Config, doc: Doc)
      ensures this.doc == doc && this.cfg == cfg && !stopRequested
    {
      this.cfg, this.doc, stopRequested := cfg, doc, false;
    }

    method ClearPositionFields()
      modifies this`doc
      ensures doc == Cleared(old(doc))
      ensures doc.qty == 0.0 && doc.entryPrice.None? && !doc.entryTimed && doc.serial.None? && doc.ibOrderId.None?
      ensures doc.awaitingId.None? && doc.orderQty.None? && doc.filledQty == 0.0
      ensures doc.entryLine.None? && doc.direction.None?
      ensures doc.state == old(doc.state) && doc.symbol == old(doc.symbol) && doc.errorReason == old(doc.errorReason)
    {
      doc := doc.(qty := 0.0, entryPrice := None, entryTimed := false, serial := None, ibOrderId := None);
      doc := doc.(awaitingId := None, orderQty := None, filledQty := 0.0);
      doc := doc.(entryLine := None, direction := None);
    }

    /** A halted bot starts to wait for an entry, holding nothing; a running one is left alone. */
    method OnStart(symbol: string) returns (effects: seq<Effect>)
      modifies this`doc
      ensures Outcome(doc, effects) == On(cfg, old(doc), Start(symbol))
      ensures if Halted(old(doc.state)) then doc.state == AwaitingEntry && HoldsNothing(doc) else doc == old(doc)
      ensures effects == [] && (old(doc.state) == Off || old(doc.state) == Errored ==>
                                  doc.errorReason.None?
                                  && doc.symbol == if symbol != "" then symbol else old(doc.symbol))
    {
      effects := [];
      if doc.state == Off || doc.state == Errored {
        ClearPositionFields();
        if symbol != "" {
          doc := doc.(symbol := symbol);
        }
        doc := doc.(errorReason := None, state := AwaitingEntry);
      }
    }

    /** Whatever the bot was doing, it is clean for the next start, and an order in flight is cancelled. */
    method OnStop() returns (effects: seq<Effect>)
      modifies this`doc
      ensures Outcome(doc, effects) == On(cfg, old(doc), Stop)
      ensures old(doc.state) != Off || CleanForStart(old(doc)) ==> CleanForStart(doc)
      ensures doc.state == Off && doc.symbol == old(doc.symbol)
      ensures effects == if (old(doc.state) == EntryPlaced || old(doc.state) == ExitPlaced) && doc.symbol != ""
                         then [CancelOrder(doc.symbol)] else []
    {
      effects := [];
      if doc.state == Off {
        return;
      }
      if doc.state == EntryPlaced || doc.state == ExitPlaced {
        if doc.symbol != "" {
          effects := [CancelOrder(doc.symbol)];
        }
      }
      ClearPositionFields();
      doc := doc.(errorReason := None, state := Off);
    }

    /** The panic button forgets nothing about the position. */
    method OnForceStop() returns (effects: seq<Effect>)
      modifies this`doc
      ensures Outcome(doc, effects) == On(cfg, old(doc), ForceStop)
      ensures doc.state == Errored && SamePosition(doc, old(doc))
      ensures effects == [] && doc.errorReason == Some("force_stop")
    {
      doc, effects := doc.(errorReason := Some("force_stop"), state := Errored), [];
    }

    /** A crash halts the bot, forgets nothing about the position, and pages once. */
    method OnCrash() returns (effects: seq<Effect>)
      modifies this`doc
      ensures Outcome(doc, effects) == On(cfg, old(doc), Crash)
      ensures Halted(doc.state) && SamePosition(doc, old(doc))
      ensures if old(doc.state) == Off || old(doc.state) == Errored then doc == old(doc) && effects == []
              else doc.state == Errored && doc.errorReason == Some("crash")
                   && effects == [Alert("BOT_CRASH", "CATASTROPHIC", None)]
    {
      if doc.state == Off || doc.state == Errored {
        return [];
      }
      doc := doc.(errorReason := Some("crash"), state := Errored);
      effects := [Alert("BOT_CRASH", "CATASTROPHIC", None)];
    }

    /** An unexplained position halts the bot and forgets nothing about what it tracked. */
    method OnIbPositionMismatch() returns (effects: seq<Effect>)
      modifies this`doc
      ensures Outcome(doc, effects) == On(cfg, old(doc), PositionMismatch)
      ensures Halted(doc.state) && SamePosition(doc, old(doc))
      ensures effects == [] && if old(doc.state) == Off || old(doc.state) == Errored then doc == old(doc)
                               else doc.state == Errored && doc.errorReason == Some("ib_mismatch")
    {
      effects := [];
      if doc.state != Off && doc.state != Errored {
        doc := doc.(errorReason := Some("ib_mismatch"), state := Errored);
      }
    }

    /** The entry is given up, but its line and direction stay for a fill that is still on its way. */
    method OnEntryTimeout() returns (effects: seq<Effect>)
      modifies this`doc
      ensures Outcome(doc, effects) == On(cfg, old(doc), EntryTimeout)
      ensures doc.entryLine == old(doc.entryLine) && doc.direction == old(doc.direction)
      ensures old(doc.state) == EntryPlaced ==> doc.state == AwaitingEntry && HoldsNothing(doc)
      ensures old(doc.state) == EntryPlaced ==>
                && doc.qty == 0.0 && doc.entryPrice.None? && !doc.entryTimed && doc.serial.None?
                && doc.orderQty.None? && doc.filledQty == 0.0 && doc.ibOrderId.None? && doc.awaitingId.None?
      ensures old(doc.state) != EntryPlaced ==> doc == old(doc)
      ensures effects == if old(doc.state) == EntryPlaced && doc.symbol != "" then [CancelOrder(doc.symbol)] else []
    {
      effects := [];
      if doc.state != EntryPlaced {
        return;
      }
      var symbol := doc.symbol;
      doc := doc.(qty := 0.0, entryPrice := None, entryTimed := false, serial := None, ibOrderId := None,
                  awaitingId := None, orderQty := None, filledQty := 0.0, state := AwaitingEntry);
      if symbol != "" {
        effects := [CancelOrder(symbol)];
      }
    }

    /** A position closed elsewhere is forgotten; without one nothing changes. */
    method OnManualClose() returns (effects: seq<Effect>)
      modifies this`doc
      ensures Outcome(doc, effects) == On(cfg, old(doc), ManualClose)
      ensures doc == old(doc) || (doc.state == AwaitingEntry && HoldsNothing(doc))
      ensures doc.state != AwaitingExit && doc.state != ExitPlaced && effects == []
      ensures old(doc.state) == AwaitingExit || old(doc.state) == ExitPlaced ==> doc.qty == 0.0 && doc.entryPrice.None?
    {
      effects := [];
      if doc.state == AwaitingExit || doc.state == ExitPlaced {
        ClearPositionFields();
        doc := doc.(state := AwaitingEntry);
      }
    }

    /** The entry is forgotten, another can be placed, and the strategy is told. */
    method OnEntryCancelled() returns (effects: seq<Effect>)
      modifies this`doc
      ensures Outcome(doc, effects) == On(cfg, old(doc), EntryCancelled)
      ensures old(doc.state) == EntryPlaced ==> HoldsNothing(doc) && Gate(doc, false, "", 1.0, None, None).Some?
      ensures if old(doc.state) == EntryPlaced then doc.state == AwaitingEntry && doc.direction.None?
              else doc == old(doc)
      ensures effects == if old(doc.state) == EntryPlaced && doc.symbol != "" then [NotifyRejected] else []
    {
      effects := [];
      if doc.state != EntryPlaced {
        return;
      }
      if doc.symbol != "" {
        effects := [NotifyRejected];
      }
      ClearPositionFields();
      doc := doc.(state := AwaitingEntry);
    }

    /** The position is still held, and an exit for it can be placed again. */
    method OnExitCancelled() returns (effects: seq<Effect>)
      modifies this`doc
      ensures Outcome(doc, effects) == On(cfg, old(doc), ExitCancelled)
      ensures doc.qty == old(doc.qty) && doc.entryPrice == old(doc.entryPrice) && doc.direction == old(doc.direction)
      ensures old(doc.state) == ExitPlaced ==> Gate(doc, true, doc.symbol, doc.qty, None, None).Some?
      ensures effects == [] && if old(doc.state) == ExitPlaced then doc.state == AwaitingExit && doc.orderQty.None?
                               else doc == old(doc)
    {
      effects := [];
      if doc.state == ExitPlaced {
        doc := doc.(orderQty := None, filledQty := 0.0, state := AwaitingExit);
      }
    }

    /** Write a clean off document over whatever is there. */
    method ForceOffState(reason: Option<string>)
      modifies this`doc
      ensures doc == On(cfg, old(doc), ForceOff(reason)).doc && CleanForStart(doc)
      ensures doc.state == Off && doc.errorReason == reason && doc.symbol == old(doc.symbol) && HoldsNothing(doc)
    {
      doc := doc.(state := Off, errorReason := reason);
      ClearPositionFields();
    }

    /** True when the order may be sent; false is a hard abort. An accepted order shuts the gate to all others. */
    method OnPlaceOrder(isExit: bool, symbol: string, qty: real, id: Option<string>,
                        serial: Option<int>) returns (accepted: bool)
      modifies this`doc
      ensures var g := Gate(old(doc), isExit, symbol, qty, id, serial);
              accepted == g.Some? && doc == if g.Some? then g.value else old(doc)
      ensures accepted ==> forall other: bool :: Gate(doc, other, symbol, qty, id, serial).None?
      ensures accepted <==> if isExit then old(doc.state) == AwaitingExit else old(doc.state) == AwaitingEntry
      ensures accepted ==> doc.orderQty == Some(qty) && doc.filledQty == 0.0 && (id.Some? ==> doc.ibOrderId == id)
      ensures accepted && isExit ==> doc.state == ExitPlaced && doc.exitRetries == 0 && doc.symbol == old(doc.symbol)
      ensures accepted && !isExit ==> doc.state == EntryPlaced && doc.entryTimed
                                      && doc.symbol == (if symbol != "" then symbol else old(doc.symbol))
                                      && doc.serial == (if serial.Some? then serial else old(doc.serial))
      ensures doc.qty == old(doc.qty) && doc.entryPrice == old(doc.entryPrice) && doc.direction == old(doc.direction)
    {
      if isExit {
        if doc.state != AwaitingExit {
          return false;
        }
        doc := doc.(orderQty := Some(qty), filledQty := 0.0, exitRetries := 0);
      } else {
        if doc.state != AwaitingEntry {
          return false;
        }
        doc := doc.(orderQty := Some(qty), filledQty := 0.0, entryTimed := true);
        if serial.Some? {
          doc := doc.(serial := serial);
        }
        if symbol != "" {
          doc := doc.(symbol := symbol);
        }
      }
      if id.Some? {
        doc := doc.(ibOrderId := id);
      }
      doc := doc.(state := if isExit then ExitPlaced else EntryPlaced);
      return true;
    }

    /** A nonempty terminal fill opens a position that an exit can be placed for; an empty one leaves none. */
    method OnEntryFilled(f: Report) returns (effects: seq<Effect>)
      modifies this`doc
      ensures Outcome(doc, effects) == On(cfg, old(doc), EntryFilled(f))
      ensures var taken := f.terminal && (old(doc.state) == EntryPlaced || old(doc.state) == AwaitingEntry);
              && (taken && f.qty == 0.0 ==> doc.state == AwaitingEntry && HoldsNothing(doc))
              && (taken && f.qty != 0.0 ==> doc.qty == f.qty && Gate(doc, true, "", f.qty, None, None).Some?)
              && (taken && f.qty != 0.0 ==>
                    && doc.state == AwaitingExit && doc.entryPrice == doc.avgPrice == Some(f.price)
                    && doc.direction == Some(match f.side case Buy => Long case Sell => Short)
                    && doc.entryIbOrderId == old(doc.ibOrderId) && doc.entryLine == old(doc.entryLine))
              && effects == if !taken || doc.symbol == "" then []
                            else if f.qty == 0.0 then [NotifyRejected] else [NotifyFilled(f.qty, f.price, f.side)]
      ensures !f.terminal && (old(doc.state) == EntryPlaced || old(doc.state) == AwaitingEntry) ==>
                doc == old(doc).(filledQty := f.qty, qty := f.qty, avgPrice := Some(f.price))
      ensures old(doc.state) != EntryPlaced && old(doc.state) != AwaitingEntry ==> doc == old(doc)
    {
      if doc.state != EntryPlaced && doc.state != AwaitingEntry {
        return [];
      }
      if !f.terminal {
        doc := doc.(filledQty := f.qty, qty := f.qty, avgPrice := Some(f.price));
        return [];
      }
      if f.qty == 0.0 {
        ClearPositionFields();
        doc := doc.(state := AwaitingEntry);
        return if doc.symbol != "" then [NotifyRejected] else [];
      }
      doc := doc.(filledQty := f.qty, qty := f.qty, avgPrice := Some(f.price), entryPrice := Some(f.price),
                  entryTimed := true);
      doc := doc.(direction := Some(if f.side == Buy then Long else Short), entryIbOrderId := doc.ibOrderId);
      doc := doc.(state := AwaitingExit);
      return if doc.symbol != "" then [NotifyFilled(f.qty, f.price, f.side)] else [];
    }

    method OnExitFilled(f: Report) returns (effects: seq<Effect>)
      modifies this
      ensures Outcome(doc, effects) == On(cfg, old(doc), ExitFilled(f))
      ensures stopRequested == (old(stopRequested) || RequestStop in effects)
      ensures ExitReport(cfg, old(doc), f, ClosedPnl(cfg, old(doc), f), doc, effects)
    {
      if doc.state != ExitPlaced {
        return [];
      }
      if !f.terminal {
        doc := doc.(filledQty := f.qty);
        return [];
      }
      var left := if doc.qty - f.qty >= 0.0 then doc.qty - f.qty else 0.0;
      if left == 0.0 {
        effects := CloseTrade(f);
      } else {
        effects := RetryOrGiveUp(f, left);
      }
      ExitReports(cfg, old(doc), f, ClosedPnl(cfg, old(doc), f), On(cfg, old(doc), ExitFilled(f)));
    }

    method CloseTrade(f: Report) returns (effects: seq<Effect>)
      modifies this
      ensures Outcome(doc, effects) == Flat(cfg.stopOnExit, old(doc), f, ClosedPnl(cfg, old(doc), f))
      ensures stopRequested == (old(stopRequested) || RequestStop in effects)
    {
      var qty, notify := doc.qty, if doc.symbol != "" then [NotifyFilled(f.qty, f.price, f.side)] else [];
      var direction := if doc.direction.Some? then doc.direction.value else if f.side == Sell then Long else Short;
      var pnl := ClosedProfit(f, direction);
      var entryPrice := doc.entryPrice.GetOr(0.0);
      ClearPositionFields();
      doc := doc.(lastRealized := Some(pnl), exitRetries := 0);
      effects := [];
      if cfg.stopOnExit {
        doc := doc.(state := Off);
        stopRequested := true;
        effects := [RequestStop];
      } else {
        doc := doc.(state := AwaitingEntry);
      }
      effects := effects + [TradeClosed(pnl, direction, entryPrice, qty, f.price, f.qty)] + notify;
    }

    method ClosedProfit(f: Report, direction: Direction) returns (pnl: real)
      ensures pnl == Recorded(doc, f, cfg.multiplier, direction)
    {
      pnl := 0.0;
      if doc.entryPrice.Some? && doc.entryPrice.value > 0.0 {
        pnl := Profit(doc.entryPrice.value, f.price, doc.qty, cfg.multiplier, direction);
      }
    }

    method RetryOrGiveUp(f: Report, left: real) returns (effects: seq<Effect>)
      modifies this`doc
      ensures Outcome(doc, effects) == Residual(old(doc), f, left) && RequestStop !in effects
    {
      var direction := if doc.direction.Some? then doc.direction.value else if f.side == Sell then Long else Short;
      var prior := doc.exitRetries;
      if prior >= MAX_EXIT_RETRIES {
        doc := doc.(qty := left, errorReason := Some("exit_retries_exhausted"), state := Errored);
        return [Alert("BOT_EXIT_RETRIES_EXHAUSTED", "CATASTROPHIC", Some(left))];
      }
      doc := doc.(qty := left, orderQty := Some(left), filledQty := 0.0, exitRetries := prior + 1);
      effects := [RetryExit(left, if direction == Long then Sell else Buy, prior + 1)];
      if doc.symbol != "" {
        effects := effects + [NotifyFilled(f.qty, f.price, f.side)];
      }
    }

    /**
     A position event after the broker has answered; `read` is the document as it was before. Unless it was
     overtaken, so that `read` is still the document, only a confirmed reduction changes the quantity.
     */
    method ApplyPositionEvent(read: Doc, ibQty: real, verified: Option<real>) returns (effects: seq<Effect>)
      modifies this`doc
      ensures doc == AfterPositionEvent(cfg, old(doc), read, ibQty, verified)
      ensures read == old(doc) && doc.qty != old(doc.qty) ==> verified.Some? && doc.qty == verified.value < old(doc.qty)
      ensures var acts := && (read.state == EntryPlaced || read.state == AwaitingExit || read.state == ExitPlaced)
                          && -read.qty < ibQty < read.qty && verified.Some? && verified.value != read.qty;
              && (!acts ==> doc == old(doc))
              && (acts && verified.value < read.qty && verified.value != 0.0 ==> doc == read.(qty := verified.value))
              && (acts && verified.value < read.qty && verified.value == 0.0 ==>
                    doc.qty == 0.0 && doc.state == if read.state == EntryPlaced then EntryPlaced else AwaitingEntry)
              && (acts && verified.value > read.qty ==>
                    SamePosition(doc, old(doc)) && doc.state == if old(doc.state) == Off then Off else Errored)
    {
      effects := [];
      if read.state == Off || read.state == Errored || read.state == AwaitingEntry {
        return;
      }
      var expected := read.qty;
      var actual := Abs(ibQty);
      if actual >= expected || verified.None? || verified.value == expected {
        return;
      }
      if verified.value < expected {
        doc := read.(qty := verified.value);
        if verified.value == 0.0 {
          effects := OnManualClose();
        }
      } else {
        effects := OnIbPositionMismatch();
      }
    }

    /** Route an update of an order by the state, not by its side. */
    method OnOrderUpdate(u: Update) returns (effects: seq<Effect>)
      modifies this
      ensures Outcome(doc, effects) == Routed(cfg, old(doc), u)
      ensures stopRequested == (old(stopRequested) || RequestStop in effects)
    {
      effects := [];
      match u {
        case Filled(f) =>
          if doc.state == EntryPlaced || doc.state == AwaitingEntry {
            effects := OnEntryFilled(f);
          } else if doc.state == ExitPlaced {
            effects := OnExitFilled(f);
          }
        case Dead =>
          if doc.state == EntryPlaced {
            effects := OnEntryCancelled();
          } else if doc.state == ExitPlaced {
            effects := OnExitCancelled();
          }
      }
    }

    /** The id goes to the order that is placed; a document whose order is over stays as clean as it was. */
    method PatchOrderId(id: string)
      modifies this`doc
      ensures doc == PatchId(old(doc), id)
      ensures if old(doc.state) == EntryPlaced || old(doc.state) == ExitPlaced
              then doc.ibOrderId == doc.awaitingId == Some(id) else doc == old(doc)
      ensures HoldsNothing(old(doc)) && !Placed(old(doc.state)) ==> HoldsNothing(doc)
      ensures doc.(ibOrderId := None, awaitingId := None) == old(doc).(ibOrderId := None, awaitingId := None)
    {
      if doc.state == EntryPlaced || doc.state == ExitPlaced {
        doc := doc.(ibOrderId := Some(id), awaitingId := Some(id));
      }
    }

    /** Back to waiting: a held position is kept, and an entry leaves none. */
    method RevertToState(prior: Status)
      modifies this`doc
      ensures doc == Revert(old(doc), prior)
      ensures doc.state == prior && doc.orderQty.None? && doc.awaitingId.None? && doc.filledQty == 0.0
      ensures if prior == AwaitingEntry then HoldsNothing(doc)
              else doc.qty == old(doc.qty) && doc.entryPrice == old(doc.entryPrice)
    {
      doc := doc.(orderQty := None, filledQty := 0.0, awaitingId := None);
      if prior == AwaitingEntry {
        ClearPositionFields();
      }
      doc := doc.(state := prior);
    }
  }

  // ---- What the handlers keep ----------------------------------------------------------

  /** Routing by state loses nothing: the handlers of the other leg would have left the document alone. */
  lemma {:induction false} RoutingLosesNothing(cfg: Config, doc: Doc, u: Update, e: Event)
    requires match u case Filled(f) => e == EntryFilled(f) || e == ExitFilled(f)
                     case Dead => e == EntryCancelled || e == ExitCancelled
    ensures On(cfg, doc, e) == Outcome(doc, []) || On(cfg, doc, e) == Routed(cfg, doc, u)
  {
  }

  /** No handler enters an order-placed state, and one that ends off leaves the document clean. */
  lemma {:induction false} HandlersNeverPlace(cfg: Config, doc: Doc, e: Event)
    requires doc.state == Off ==> CleanForStart(doc)
    ensures var d := On(cfg, doc, e).doc;
            && (Placed(d.state) ==> d.state == doc.state)
            && (d.state == Off ==> CleanForStart(d))
  {
  }

  /**
   A handler keeps the tracked position, or leaves none, or is a fill; one that ends in error keeps it,
   less what the last exit order sold.
   */
  lemma {:induction false} HandlersKeepPosition(cfg: Config, doc: Doc, e: Event)
    ensures var d := On(cfg, doc, e).doc;
            && (|| (d.qty == doc.qty && d.entryPrice == doc.entryPrice && d.direction == doc.direction)
                || HoldsNothing(d)
                || e.EntryFilled? || e.ExitFilled?)
            && (d.state == Errored ==>
                  var sold := if e.ExitFilled? && doc.state == ExitPlaced then e.exit.qty else 0.0;
                  var left := if sold == 0.0 then doc.qty else MaxZero(doc.qty - sold);
                  SamePosition(d, doc.(qty := left)))
  {
  }

  /** A halted bot is started or stays halted. */
  lemma {:induction false} OnlyStartRevives(cfg: Config, doc: Doc, e: Event)
    requires Halted(doc.state)
    ensures Halted(On(cfg, doc, e).doc.state) <==> !e.Start?
  {
  }

  /** The document of an accepted entry, after its id came back and its terminal fill was handled. */
  function EntryInOrder(cfg: Config, placed: Doc, f: Report, id: string): Doc {
    On(cfg, PatchId(placed, id), EntryFilled(f)).doc
  }

  /** The same with the fill handled first. */
  function FillFirst(cfg: Config, placed: Doc, f: Report, id: string): Doc {
    PatchId(On(cfg, placed, EntryFilled(f)).doc, id)
  }

  /**
   The id of an order that its fill overtakes is dropped, which keeps the document of a finished order
   clean; a position then records the placeholder as its entry order, and else the order's own id.
   */
  lemma {:induction false} OvertakenIdIsDropped(cfg: Config, doc: Doc, placed: Doc, symbol: string, qty: real,
                                                serial: Option<int>, f: Report, id: string)
    requires Gate(doc, false, symbol, qty, Some(PENDING_ID), serial) == Some(placed) && f.terminal
    ensures var late, known := FillFirst(cfg, placed, f, id), EntryInOrder(cfg, placed, f, id);
            && (f.qty == 0.0 ==> HoldsNothing(late) && late == known)
            && (f.qty != 0.0 ==>
                  && late.state == known.state == AwaitingExit && late.qty == known.qty == f.qty
                  && known.entryIbOrderId == Some(id) && late.entryIbOrderId == Some(PENDING_ID)
                  && late.awaitingId == doc.awaitingId)
  {
  }

  /**
   What is left of a document when an order is placed, fails and is rolled back: of an exit the position, with
   the placeholder for an order id, of an entry the cleared document.
   */
  function RolledBack(doc: Doc, symbol: string): Doc {
    if doc.state == AwaitingExit
    then doc.(orderQty := None, filledQty := 0.0, awaitingId := None, ibOrderId := Some(PENDING_ID), exitRetries := 0)
    else Cleared(doc).(symbol := if symbol != "" then symbol else doc.symbol)
  }

  lemma {:induction false} RollBackRestores(doc: Doc, symbol: string, qty: real, serial: Option<int>)
    requires doc.state == AwaitingExit || doc.state == AwaitingEntry
    ensures var placed := Gate(doc, doc.state == AwaitingExit, symbol, qty, Some(PENDING_ID), serial);
            placed.Some? && Revert(placed.value, doc.state) == RolledBack(doc, symbol)
  {
  }
}
