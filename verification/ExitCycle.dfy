/**
 One exit cycle: from an accepted exit order for the whole position to flat or stuck, over any
 sequence of fill reports (ib_trader/bots/runtime.py, on_place_exit_order and on_exit_filled).
 */
module ExitCycle {
  import opened Wrappers
  import opened BotLifecycle

  /** The exit fill handler over a sequence of reports. */
  function Exits(cfg: Config, doc: Doc, reports: seq<Report>): Outcome {
    if |reports| == 0 then Outcome(doc, [])
    else
      var before := Exits(cfg, doc, reports[..|reports| - 1]);
      var last := OnExitFilled(cfg, before.doc, reports[|reports| - 1]);
      Outcome(last.doc, before.effects + last.effects)
  }

  /** The terminal reports that arrive while an exit order is placed, each ending one order. */
  function Ended(cfg: Config, doc: Doc, reports: seq<Report>): seq<Report> {
    if |reports| == 0 then []
    else
      var n := |reports| - 1;
      var before := Ended(cfg, doc, reports[..n]);
      if Exits(cfg, doc, reports[..n]).doc.state == ExitPlaced && reports[n].terminal
      then before + [reports[n]] else before
  }

  function Sold(ended: seq<Report>): real {
    if |ended| == 0 then 0.0 else Sold(ended[..|ended| - 1]) + ended[|ended| - 1].qty
  }

  /** What is left of a position of `start` after each of the first `n` ended orders, as retry orders. */
  function Retries(start: real, ended: seq<Report>, n: nat, side: Side): seq<Effect>
    requires n <= |ended|
  {
    seq(n, k requires 0 <= k < n => RetryExit(start - Sold(ended[..k + 1]), side, k + 1))
  }

  datatype Kind = Retry | Page | Trade | Notice | Other

  function KindOf(e: Effect): Kind {
    match e
    case RetryExit(_, _, _) => Retry
    case Alert(_, _, _) => Page
    case TradeClosed(_, _, _, _, _, _) => Trade
    case NotifyFilled(_, _, _) => Notice
    case _ => Other
  }

  /** The effects of one kind, in order. */
  function Only(effects: seq<Effect>, kind: Kind): seq<Effect> {
    if |effects| == 0 then []
    else
      var before, last := Only(effects[..|effects| - 1], kind), effects[|effects| - 1];
      if KindOf(last) == kind then before + [last] else before
  }

  function RetriesIn(effects: seq<Effect>): seq<Effect> {
    Only(effects, Retry)
  }

  function FlatState(cfg: Config): Status {
    if cfg.stopOnExit then Off else AwaitingEntry
  }

  /** Where a cycle for `start` stands once the orders in `ended` are over. */
  ghost predicate Tracks(cfg: Config, was: Doc, doc: Doc, ended: seq<Report>) {
    var start, n := was.qty, |ended|;
    if doc.state == ExitPlaced then
      && doc.qty == start - Sold(ended) && doc.qty > 0.0 && doc.orderQty == Some(doc.qty)
      && doc.exitRetries == n <= MAX_EXIT_RETRIES
      && doc.direction == was.direction && doc.entryPrice == was.entryPrice
    else
      && n > 0 && start - Sold(ended[..n - 1]) > 0.0
      && if doc.state == Errored
         then n == MAX_EXIT_RETRIES + 1 && doc.qty == start - Sold(ended) && doc.qty > 0.0
              && doc.errorReason == Some("exit_retries_exhausted")
         else doc.state == FlatState(cfg) && n <= MAX_EXIT_RETRIES + 1 && start <= Sold(ended)
              && Cleared(doc) == doc
  }

  lemma {:induction false} OnlyAppend(a: seq<Effect>, b: seq<Effect>, kind: Kind)
    ensures Only(a + b, kind) == Only(a, kind) + Only(b, kind)
  {
    if |b| == 0 {
      assert a + b == a && Only(a, kind) + [] == Only(a, kind);
    } else {
      var n := |b| - 1;
      assert (a + b)[..|a| + n] == a + b[..n] && (a + b)[|a| + n] == b[n];
      OnlyAppend(a, b[..n], kind);
      if KindOf(b[n]) == kind {
        assert Only(a, kind) + Only(b, kind) == Only(a, kind) + Only(b[..n], kind) + [b[n]];
      }
    }
  }

  lemma {:induction false} OnlyOne(e: Effect, kind: Kind)
    ensures Only([e], kind) == if KindOf(e) == kind then [e] else []
  {
    assert [e][..0] == [] && Only([], kind) == [];
    assert [] + [e] == [e];
  }

  lemma {:induction false} SoldAppend(ended: seq<Report>, f: Report)
    ensures Sold(ended + [f]) == Sold(ended) + f.qty
  {
    assert (ended + [f])[..|ended|] == ended;
  }

  lemma {:induction false} RetriesStep(start: real, ended: seq<Report>, f: Report, n: nat, side: Side)
    requires n <= |ended|
    ensures Retries(start, ended + [f], n, side) == Retries(start, ended, n, side)
  {
    forall k | 0 <= k < n ensures Retries(start, ended + [f], n, side)[k] == Retries(start, ended, n, side)[k] {
      assert (ended + [f])[..k + 1] == ended[..k + 1];
    }
  }

  lemma {:induction false} RetriesLast(start: real, ended: seq<Report>, f: Report, side: Side)
    ensures Retries(start, ended + [f], |ended| + 1, side)
         == Retries(start, ended, |ended|, side) + [RetryExit(start - Sold(ended) - f.qty, side, |ended| + 1)]
  {
    RetriesStep(start, ended, f, |ended|, side);
    SoldAppend(ended, f);
    assert (ended + [f])[..|ended| + 1] == ended + [f];
    var all := Retries(start, ended + [f], |ended| + 1, side);
    assert all[..|ended|] == Retries(start, ended + [f], |ended|, side);
    assert all == all[..|ended|] + [all[|ended|]];
  }

  /** The direction a report closes, given the position's. */
  predicate Heads(was: Doc, f: Report, d: Direction) {
    was.direction == Some(d) || (was.direction.None? && f.side == Closing(d))
  }

  /** One terminal report on a tracked cycle. */
  lemma {:induction false} EndOne(cfg: Config, was: Doc, doc: Doc, next: Outcome, ended: seq<Report>, f: Report,
                                  pnl: real)
    requires doc.state == ExitPlaced && Tracks(cfg, was, doc, ended) && f.terminal
    requires next == ExitStep(cfg.stopOnExit, doc, f, pnl)
    ensures Tracks(cfg, was, next.doc, ended + [f])
  {
    SoldAppend(ended, f);
    assert (ended + [f])[..|ended|] == ended;
  }

  /** One effect, and perhaps others before and after it. */
  lemma {:induction false} OnlyOfStep(effects: seq<Effect>, first: seq<Effect>, e: Effect, told: seq<Effect>,
                                      kind: Kind)
    requires effects == first + [e] + told && Only(first, kind) == []
    ensures Only(effects, kind) == if KindOf(e) == kind then [e] + Only(told, kind) else Only(told, kind)
  {
    OnlyAppend(first + [e], told, kind);
    OnlyAppend(first, [e], kind);
    OnlyOne(e, kind);
    assert [] + [e] == [e] && [] + [] + Only(told, kind) == Only(told, kind);
  }

  lemma {:induction false} OnlyTold(was: Doc, notice: Effect, told: seq<Effect>, kind: Kind)
    requires notice.NotifyFilled? && told == if was.symbol != "" then [notice] else []
    ensures Only(told, kind) == if kind == Notice then told else []
  {
    OnlyOne(notice, kind);
  }

  /** What one final report does, kind by kind. */
  ghost predicate StepTells(was: Doc, f: Report, next: Outcome, d: Direction, kind: Kind) {
    Only(next.effects, kind) ==
    match kind
    case Retry =>
      if next.doc.state == ExitPlaced then [RetryExit(was.qty - f.qty, Closing(d), was.exitRetries + 1)] else []
    case Page =>
      if next.doc.state == Errored
      then [Alert("BOT_EXIT_RETRIES_EXHAUSTED", "CATASTROPHIC", Some(was.qty - f.qty))] else []
    case Trade =>
      if next.doc.state == ExitPlaced || next.doc.state == Errored then []
      else [TradeClosed(next.doc.lastRealized.GetOr(0.0), d, was.entryPrice.GetOr(0.0), was.qty, f.price, f.qty)]
    case Notice =>
      if was.symbol == "" || next.doc.state == Errored then [] else [NotifyFilled(f.qty, f.price, f.side)]
    case Other => if next.doc.state == Off then [RequestStop] else []
  }

  lemma {:induction false} StuckTells(was: Doc, f: Report, next: Outcome, d: Direction, kind: Kind)
    requires next.doc.state == Errored
    requires next.effects == [Alert("BOT_EXIT_RETRIES_EXHAUSTED", "CATASTROPHIC", Some(was.qty - f.qty))]
    ensures StepTells(was, f, next, d, kind)
  {
    OnlyOne(next.effects[0], kind);
  }

  lemma {:induction false} RetryTells(was: Doc, f: Report, next: Outcome, d: Direction, kind: Kind, retry: Effect,
                                      told: seq<Effect>)
    requires next.doc.state == ExitPlaced && retry == RetryExit(was.qty - f.qty, Closing(d), was.exitRetries + 1)
    requires told == (if was.symbol != "" then [NotifyFilled(f.qty, f.price, f.side)] else [])
    requires next.effects == [retry] + told
    ensures StepTells(was, f, next, d, kind)
  {
    OnlyTold(was, NotifyFilled(f.qty, f.price, f.side), told, kind);
    assert next.effects == [] + [retry] + told;
    OnlyOfStep(next.effects, [], retry, told, kind);
    assert kind == Retry ==> Only(next.effects, kind) == [retry] + [] == [retry];
  }

  lemma {:induction false} ResidualTells(was: Doc, f: Report, next: Outcome, d: Direction, kind: Kind)
    requires was.state == ExitPlaced && ExitDirection(was, f.side) == d && next == Residual(was, f, was.qty - f.qty)
    ensures StepTells(was, f, next, d, kind)
  {
    if was.exitRetries >= MAX_EXIT_RETRIES {
      StuckTells(was, f, next, d, kind);
    } else {
      RetryTells(was, f, next, d, kind, RetryExit(was.qty - f.qty, Closing(d), was.exitRetries + 1),
                 IfNamed(was, [NotifyFilled(f.qty, f.price, f.side)]));
    }
  }

  lemma {:induction false} OnlyOfFlat(stop: seq<Effect>, trade: Effect, told: seq<Effect>, kind: Kind)
    requires trade.TradeClosed? && (stop == [] || stop == [RequestStop])
    requires Only(told, kind) == if kind == Notice then told else []
    ensures Only(stop + [trade] + told, kind)
         == match kind case Trade => [trade] case Notice => told case Other => stop case _ => []
  {
    OnlyAppend(stop + [trade], told, kind);
    OnlyAppend(stop, [trade], kind);
    OnlyOne(trade, kind);
    OnlyOne(RequestStop, kind);
    assert Only(stop, kind) == (if kind == Other then stop else []);
    assert stop + [] + [] == stop && [] + [trade] + [] == [trade] && [] + [] + told == told;
  }

  lemma {:induction false} FlatTells(stopOnExit: bool, was: Doc, f: Report, pnl: real, next: Outcome, d: Direction,
                                     kind: Kind)
    requires was.state == ExitPlaced && ExitDirection(was, f.side) == d && next == Flat(stopOnExit, was, f, pnl)
    ensures StepTells(was, f, next, d, kind)
  {
    var stop, told := if stopOnExit then [RequestStop] else [], IfNamed(was, [NotifyFilled(f.qty, f.price, f.side)]);
    var trade := TradeClosed(pnl, d, was.entryPrice.GetOr(0.0), was.qty, f.price, f.qty);
    assert next.effects == stop + [trade] + told;
    OnlyTold(was, NotifyFilled(f.qty, f.price, f.side), told, kind);
    OnlyOfFlat(stop, trade, told, kind);
  }

  lemma {:induction false} ExitTells(stopOnExit: bool, was: Doc, f: Report, pnl: real, next: Outcome, d: Direction,
                                     kind: Kind)
    requires was.state == ExitPlaced && f.terminal && ExitDirection(was, f.side) == d
    requires next == ExitStep(stopOnExit, was, f, pnl)
    ensures StepTells(was, f, next, d, kind)
  {
    if was.qty <= f.qty {
      FlatTells(stopOnExit, was, f, pnl, next, d, kind);
    } else {
      ResidualTells(was, f, next, d, kind);
    }
  }

  /** Where a cycle stands, and that the retries so far were each for what was left. */
  ghost predicate Follows(cfg: Config, was: Doc, r: Outcome, ended: seq<Report>, d: Direction) {
    && Tracks(cfg, was, r.doc, ended)
    && RetriesIn(r.effects)
       == Retries(was.qty, ended, if r.doc.state == ExitPlaced then |ended| else |ended| - 1, Closing(d))
  }

  lemma {:induction false} FollowsAppend(cfg: Config, was: Doc, r: Outcome, next: Outcome, ended: seq<Report>,
                                         f: Report, d: Direction)
    requires Follows(cfg, was, r, ended, d) && r.doc.state == ExitPlaced && Tracks(cfg, was, next.doc, ended + [f])
    requires RetriesIn(next.effects)
          == if next.doc.state == ExitPlaced
             then [RetryExit(was.qty - Sold(ended) - f.qty, Closing(d), |ended| + 1)] else []
    ensures Follows(cfg, was, Outcome(next.doc, r.effects + next.effects), ended + [f], d)
  {
    OnlyAppend(r.effects, next.effects, Retry);
    if next.doc.state == ExitPlaced {
      RetriesLast(was.qty, ended, f, Closing(d));
    } else {
      RetriesStep(was.qty, ended, f, |ended|, Closing(d));
      assert RetriesIn(r.effects) + [] == RetriesIn(r.effects);
    }
  }

  lemma {:induction false} FollowsOn(cfg: Config, was: Doc, r: Outcome, next: Outcome, ended: seq<Report>,
                                     f: Report, d: Direction, pnl: real)
    requires Follows(cfg, was, r, ended, d) && r.doc.state == ExitPlaced && f.terminal && Heads(was, f, d)
    requires next == ExitStep(cfg.stopOnExit, r.doc, f, pnl)
    ensures Follows(cfg, was, Outcome(next.doc, r.effects + next.effects), ended + [f], d)
  {
    EndOne(cfg, was, r.doc, next, ended, f, pnl);
    ExitTells(cfg.stopOnExit, r.doc, f, pnl, next, d, Retry);
    FollowsAppend(cfg, was, r, next, ended, f, d);
  }

  /**
   The exit cycle. After an accepted exit for the whole tracked quantity and any reports: while an order
   is placed the tracked quantity is the start less what ended orders sold, and the order is for all of
   it; the cycle is over after at most one order and `MAX_EXIT_RETRIES` retries, either flat, having sold
   the position, or errored, holding exactly the residual. Each retry was for the residual, to close.
   */
  lemma {:induction false} ExitCycleTracks(cfg: Config, was: Doc, placed: Doc, symbol: string,
                                           id: Option<string>, reports: seq<Report>, d: Direction)
    requires was.state == AwaitingExit && was.qty > 0.0 && Gate(was, true, symbol, was.qty, id, None) == Some(placed)
    requires forall i :: 0 <= i < |reports| ==> Heads(was, reports[i], d)
    ensures Follows(cfg, was, Exits(cfg, placed, reports), Ended(cfg, placed, reports), d)
  {
    if |reports| == 0 {
      assert Retries(was.qty, [], 0, Closing(d)) == [];
    } else {
      var n := |reports| - 1;
      var before, ended := Exits(cfg, placed, reports[..n]), Ended(cfg, placed, reports[..n]);
      ExitCycleTracks(cfg, was, placed, symbol, id, reports[..n], d);
      if before.doc.state == ExitPlaced && reports[n].terminal {
        var f := reports[n];
        FollowsOn(cfg, was, before, OnExitFilled(cfg, before.doc, f), ended, f, d, ClosedPnl(cfg, before.doc, f));
      } else {
        assert before.effects + [] == before.effects;
      }
    }
  }

  // ---- What a cycle tells ----------------------------------------------------------------

  function Notices(ended: seq<Report>): seq<Effect> {
    seq(|ended|, k requires 0 <= k < |ended| => NotifyFilled(ended[k].qty, ended[k].price, ended[k].side))
  }

  lemma {:induction false} NoticesAppend(ended: seq<Report>, f: Report)
    ensures Notices(ended + [f]) == Notices(ended) + [NotifyFilled(f.qty, f.price, f.side)]
  {
  }

  /**
   What a cycle has told so far: one page, when it is stuck, with what is left; one closed trade, when it is
   flat, with what the last order was for and what it filled; and every ended order but the one it got stuck
   on to the strategy.
   */
  ghost predicate Tells(was: Doc, r: Outcome, ended: seq<Report>, d: Direction, kind: Kind) {
    var n := |ended| - 1;
    && (r.doc.state != ExitPlaced ==> n >= 0)
    && match kind
       case Retry => true
       case Page =>
         Only(r.effects, Page)
         == if r.doc.state == Errored
            then [Alert("BOT_EXIT_RETRIES_EXHAUSTED", "CATASTROPHIC", Some(was.qty - Sold(ended)))] else []
       case Trade =>
         Only(r.effects, Trade)
         == if r.doc.state == ExitPlaced || r.doc.state == Errored then []
            else [TradeClosed(r.doc.lastRealized.GetOr(0.0), d, was.entryPrice.GetOr(0.0),
                              was.qty - Sold(ended[..n]), ended[n].price, ended[n].qty)]
       case Notice =>
         Only(r.effects, Notice)
         == if was.symbol == "" then [] else Notices(if r.doc.state == Errored then ended[..n] else ended)
       case Other => Only(r.effects, Other) == if r.doc.state == Off then [RequestStop] else []
  }

  lemma {:induction false} TellsNext(was: Doc, r: Outcome, next: Outcome, ended: seq<Report>, f: Report, d: Direction,
                                     kind: Kind)
    requires Tells(was, r, ended, d, kind) && r.doc.state == ExitPlaced && r.doc.symbol == was.symbol
    requires r.doc.qty == was.qty - Sold(ended) && r.doc.entryPrice == was.entryPrice
    requires StepTells(r.doc, f, next, d, kind)
    ensures Tells(was, Outcome(next.doc, r.effects + next.effects), ended + [f], d, kind)
  {
    var all, told := ended + [f], Only(r.effects, kind);
    assert all[..|ended|] == ended && all[|ended|] == f;
    SoldAppend(ended, f);
    OnlyAppend(r.effects, next.effects, kind);
    NoticesAppend(ended, f);
    assert told + [] == told;
    assert kind != Notice ==> told == [] || kind == Retry;
  }

  lemma {:induction false} SymbolStays(cfg: Config, doc: Doc, reports: seq<Report>)
    ensures Exits(cfg, doc, reports).doc.symbol == doc.symbol
  {
    if |reports| > 0 {
      SymbolStays(cfg, doc, reports[..|reports| - 1]);
    }
  }

  /**
   Over any reports a cycle pages exactly when it gets stuck and then once, records exactly one closed trade
   when it ends flat and otherwise none, and tells the strategy of every other ended order.
   */
  lemma {:induction false} CycleTells(cfg: Config, was: Doc, placed: Doc, symbol: string,
                                      id: Option<string>, reports: seq<Report>, d: Direction, kind: Kind)
    requires was.state == AwaitingExit && was.qty > 0.0 && Gate(was, true, symbol, was.qty, id, None) == Some(placed)
    requires forall i :: 0 <= i < |reports| ==> Heads(was, reports[i], d)
    ensures Tells(was, Exits(cfg, placed, reports), Ended(cfg, placed, reports), d, kind)
  {
    if |reports| == 0 {
      assert Notices([]) == [];
    } else {
      var n := |reports| - 1;
      var before, ended, f := Exits(cfg, placed, reports[..n]), Ended(cfg, placed, reports[..n]), reports[n];
      CycleTells(cfg, was, placed, symbol, id, reports[..n], d, kind);
      if before.doc.state == ExitPlaced && f.terminal {
        ExitCycleTracks(cfg, was, placed, symbol, id, reports[..n], d);
        SymbolStays(cfg, placed, reports[..n]);
        OneMoreTold(cfg, was, before, ended, f, d, kind);
      } else {
        assert before.effects + [] == before.effects;
      }
    }
  }

  lemma {:induction false} OneMoreTold(cfg: Config, was: Doc, r: Outcome, ended: seq<Report>, f: Report, d: Direction,
                                       kind: Kind)
    requires Tells(was, r, ended, d, kind) && Tracks(cfg, was, r.doc, ended) && Heads(was, f, d)
    requires r.doc.state == ExitPlaced && f.terminal && r.doc.symbol == was.symbol
    ensures var next := OnExitFilled(cfg, r.doc, f);
            Tells(was, Outcome(next.doc, r.effects + next.effects), ended + [f], d, kind)
  {
    var pnl := ClosedPnl(cfg, r.doc, f);
    var next := ExitStep(cfg.stopOnExit, r.doc, f, pnl);
    ExitTells(cfg.stopOnExit, r.doc, f, pnl, next, d, kind);
    TellsNext(was, r, next, ended, f, d, kind);
  }

  // ---- Conservation and profit ------------------------------------------------------------

  /** No order fills more than its size. */
  ghost predicate Fits(cfg: Config, doc: Doc, reports: seq<Report>) {
    forall i :: 0 <= i < |reports| ==> FitsAt(Exits(cfg, doc, reports[..i]).doc, reports[i])
  }

  predicate FitsAt(doc: Doc, f: Report) {
    doc.state == ExitPlaced && f.terminal ==> 0.0 <= f.qty <= doc.orderQty.GetOr(0.0)
  }

  ghost predicate Conserves(cfg: Config, was: Doc, doc: Doc, ended: seq<Report>) {
    var sold := Sold(ended);
    0.0 <= sold <= was.qty && doc.qty == was.qty - sold && (doc.state == FlatState(cfg) <==> sold == was.qty)
  }

  lemma {:induction false} ConservesOn(cfg: Config, was: Doc, doc: Doc, ended: seq<Report>, f: Report, pnl: real)
    requires Tracks(cfg, was, doc, ended) && doc.state == ExitPlaced && f.terminal && FitsAt(doc, f)
    requires Conserves(cfg, was, doc, ended)
    ensures Conserves(cfg, was, ExitStep(cfg.stopOnExit, doc, f, pnl).doc, ended + [f])
  {
    SoldAppend(ended, f);
  }

  /** When no order overfills, a cycle never sells more than the position, and ends flat exactly when it sold it all. */
  lemma {:induction false} FittingCycleConserves(cfg: Config, was: Doc, placed: Doc, symbol: string,
                                                 id: Option<string>, reports: seq<Report>, d: Direction)
    requires was.state == AwaitingExit && was.qty > 0.0 && Gate(was, true, symbol, was.qty, id, None) == Some(placed)
    requires forall i :: 0 <= i < |reports| ==> Heads(was, reports[i], d)
    requires Fits(cfg, placed, reports)
    ensures Conserves(cfg, was, Exits(cfg, placed, reports).doc, Ended(cfg, placed, reports))
  {
    if |reports| > 0 {
      var n := |reports| - 1;
      var before, ended := Exits(cfg, placed, reports[..n]).doc, Ended(cfg, placed, reports[..n]);
      FitsPrefix(cfg, placed, reports, n);
      FittingCycleConserves(cfg, was, placed, symbol, id, reports[..n], d);
      ExitCycleTracks(cfg, was, placed, symbol, id, reports[..n], d);
      ConservesStep(cfg, was, before, Exits(cfg, placed, reports).doc, ended, Ended(cfg, placed, reports), reports[n]);
    }
  }

  lemma {:induction false} FitsPrefix(cfg: Config, doc: Doc, reports: seq<Report>, n: nat)
    requires Fits(cfg, doc, reports) && n < |reports|
    ensures Fits(cfg, doc, reports[..n]) && FitsAt(Exits(cfg, doc, reports[..n]).doc, reports[n])
  {
    forall i | 0 <= i < n ensures FitsAt(Exits(cfg, doc, reports[..n][..i]).doc, reports[..n][i]) {
      assert reports[..n][..i] == reports[..i];
    }
  }

  lemma {:induction false} ConservesStep(cfg: Config, was: Doc, before: Doc, next: Doc, ended: seq<Report>,
                                         ended': seq<Report>, f: Report)
    requires next == OnExitFilled(cfg, before, f).doc && FitsAt(before, f)
    requires ended' == if before.state == ExitPlaced && f.terminal then ended + [f] else ended
    requires Tracks(cfg, was, before, ended) && Conserves(cfg, was, before, ended)
    ensures Conserves(cfg, was, next, ended')
  {
    if before.state == ExitPlaced && f.terminal {
      ConservesOn(cfg, was, before, ended, f, ClosedPnl(cfg, before, f));
    } else {
      assert next.qty == before.qty && next.state == before.state;
    }
  }

  /** Profit of each ended order on its own quantity and price. */
  function Earned(ended: seq<Report>, entry: real, mult: real, d: Direction): real {
    if |ended| == 0 then 0.0
    else
      var last := ended[|ended| - 1];
      Earned(ended[..|ended| - 1], entry, mult, d) + Profit(entry, last.price, last.qty, mult, d)
  }

  lemma {:induction false} EarnedLast(ended: seq<Report>, entry: real, mult: real, d: Direction)
    requires |ended| > 0
    ensures var n := |ended| - 1;
            Earned(ended, entry, mult, d)
            == Earned(ended[..n], entry, mult, d) + Profit(entry, ended[n].price, ended[n].qty, mult, d)
  {
  }

  /** The profit recorded is that of the last order, on what was left for it. */
  ghost predicate RecordsLast(cfg: Config, was: Doc, doc: Doc, ended: seq<Report>) {
    var n := |ended| - 1;
    n >= 0 && doc.lastRealized == Some(ClosedPnl(cfg, was.(qty := was.qty - Sold(ended[..n])), ended[n]))
  }

  lemma {:induction false} TrackedPnl(cfg: Config, was: Doc, before: Doc, ended: seq<Report>, f: Report)
    requires before.state == ExitPlaced && Tracks(cfg, was, before, ended)
    ensures ClosedPnl(cfg, before, f) == ClosedPnl(cfg, was.(qty := was.qty - Sold(ended)), f)
  {
    SamePnl(cfg, before, was.(qty := was.qty - Sold(ended)), f);
  }

  lemma {:induction false} LastPnl(cfg: Config, was: Doc, next: Doc, ended: seq<Report>, f: Report, pnl: real)
    requires pnl == ClosedPnl(cfg, was.(qty := was.qty - Sold(ended)), f) && next.lastRealized == Some(pnl)
    ensures RecordsLast(cfg, was, next, ended + [f])
  {
    assert (ended + [f])[..|ended|] == ended;
  }

  lemma {:induction false} RecordsLastStep(cfg: Config, was: Doc, before: Doc, next: Doc, ended: seq<Report>, f: Report)
    requires before.state == ExitPlaced && Tracks(cfg, was, before, ended)
    requires next == OnExitFilled(cfg, before, f).doc && next.state == FlatState(cfg)
    ensures f.terminal && RecordsLast(cfg, was, next, ended + [f])
  {
    var pnl := ClosedPnl(cfg, before, f);
    FlatRecords(cfg.stopOnExit, before, f, pnl);
    TrackedPnl(cfg, was, before, ended, f);
    LastPnl(cfg, was, next, ended, f, pnl);
  }

  /** A cycle that is over recorded the profit of its last order. */
  lemma {:induction false} LastOrderRecorded(cfg: Config, was: Doc, placed: Doc, symbol: string,
                                             id: Option<string>, reports: seq<Report>, d: Direction)
    requires was.state == AwaitingExit && was.qty > 0.0 && Gate(was, true, symbol, was.qty, id, None) == Some(placed)
    requires forall i :: 0 <= i < |reports| ==> Heads(was, reports[i], d)
    requires Exits(cfg, placed, reports).doc.state == FlatState(cfg)
    ensures RecordsLast(cfg, was, Exits(cfg, placed, reports).doc, Ended(cfg, placed, reports))
  {
    if |reports| > 0 {
      var n := |reports| - 1;
      var before, ended := Exits(cfg, placed, reports[..n]).doc, Ended(cfg, placed, reports[..n]);
      if before.state == ExitPlaced {
        ExitCycleTracks(cfg, was, placed, symbol, id, reports[..n], d);
        RecordsLastStep(cfg, was, before, Exits(cfg, placed, reports).doc, ended, reports[n]);
      } else {
        LastOrderRecorded(cfg, was, placed, symbol, id, reports[..n], d);
      }
    }
  }

  lemma {:induction false} FlatRecords(stopOnExit: bool, doc: Doc, f: Report, pnl: real)
    requires doc.state == ExitPlaced
    ensures var next := ExitStep(stopOnExit, doc, f, pnl).doc;
            next.state != ExitPlaced && next.state != Errored ==> f.terminal && next.lastRealized == Some(pnl)
  {
  }

  lemma {:induction false} SamePnl(cfg: Config, a: Doc, b: Doc, f: Report)
    requires a.qty == b.qty && a.direction == b.direction && a.entryPrice == b.entryPrice
    ensures ClosedPnl(cfg, a, f) == ClosedPnl(cfg, b, f)
  {
  }

  /**
   When what a closed trade records is what its exit earned, for any reports. With an entry price: when the
   orders before the last one, and what the last one sold beyond the position, earned nothing together.
   Without one nothing is recorded: when the exit earned nothing, counted from zero or the negative price.
   */
  lemma {:induction false} RecordedExactly(cfg: Config, was: Doc, placed: Doc, symbol: string,
                                           id: Option<string>, reports: seq<Report>, d: Direction)
    requires was.state == AwaitingExit && was.qty > 0.0 && Gate(was, true, symbol, was.qty, id, None) == Some(placed)
    requires forall i :: 0 <= i < |reports| ==> Heads(was, reports[i], d)
    requires Exits(cfg, placed, reports).doc.state == FlatState(cfg)
    ensures var r, ended := Exits(cfg, placed, reports).doc, Ended(cfg, placed, reports);
            var entry, mult, n := was.entryPrice.GetOr(0.0), cfg.multiplier, |ended| - 1;
            && n >= 0
            && (r.lastRealized == Some(Earned(ended, entry, mult, d))
                <==> if entry > 0.0
                     then Earned(ended[..n], entry, mult, d)
                          + Profit(entry, ended[n].price, Sold(ended) - was.qty, mult, d) == 0.0
                     else Earned(ended, entry, mult, d) == 0.0)
  {
    LastOrderRecorded(cfg, was, placed, symbol, id, reports, d);
    EndedHead(cfg, was, placed, reports, d);
    RecordedOfEarned(cfg, was, Exits(cfg, placed, reports).doc, Ended(cfg, placed, reports), d);
  }

  lemma {:induction false} RecordedOfEarned(cfg: Config, was: Doc, doc: Doc, ended: seq<Report>, d: Direction)
    requires RecordsLast(cfg, was, doc, ended) && Heads(was, ended[|ended| - 1], d)
    ensures var entry, mult, n := was.entryPrice.GetOr(0.0), cfg.multiplier, |ended| - 1;
            doc.lastRealized == Some(Earned(ended, entry, mult, d))
            <==> if entry > 0.0
                 then Earned(ended[..n], entry, mult, d)
                      + Profit(entry, ended[n].price, Sold(ended) - was.qty, mult, d) == 0.0
                 else Earned(ended, entry, mult, d) == 0.0
  {
    var entry, mult, n := was.entryPrice.GetOr(0.0), cfg.multiplier, |ended| - 1;
    var left := was.qty - Sold(ended[..n]);
    PnlIsProfit(cfg, was, left, ended[n], d);
    EarnedLast(ended, entry, mult, d);
    ProfitSplits(entry, ended[n].price, ended[n].qty, left, mult, d);
    assert Sold(ended) - was.qty == ended[n].qty - left;
  }

  lemma {:induction false} ProfitSplits(entry: real, exit: real, a: real, b: real, mult: real, d: Direction)
    ensures Profit(entry, exit, a, mult, d) == Profit(entry, exit, b, mult, d) + Profit(entry, exit, a - b, mult, d)
    ensures Profit(entry, exit, 0.0, mult, d) == 0.0
  {
  }

  lemma {:induction false} PnlIsProfit(cfg: Config, was: Doc, left: real, f: Report, d: Direction)
    requires Heads(was, f, d)
    ensures var entry := was.entryPrice.GetOr(0.0);
            ClosedPnl(cfg, was.(qty := left), f)
            == if entry > 0.0 then Profit(entry, f.price, left, cfg.multiplier, d) else 0.0
  {
  }

  /**
   So what a closed trade records is the profit of the final order alone: with an entry price, and no order
   overfilling, it is the profit of the whole exit exactly when the orders before it earned nothing.
   */
  lemma {:induction false} RecordedProfit(cfg: Config, was: Doc, placed: Doc, symbol: string,
                                          id: Option<string>, reports: seq<Report>, d: Direction)
    requires was.state == AwaitingExit && was.qty > 0.0 && Gate(was, true, symbol, was.qty, id, None) == Some(placed)
    requires forall i :: 0 <= i < |reports| ==> Heads(was, reports[i], d)
    requires Fits(cfg, placed, reports) && was.entryPrice.Some? && was.entryPrice.value > 0.0
    requires Exits(cfg, placed, reports).doc.state == FlatState(cfg)
    ensures var r, ended, entry := Exits(cfg, placed, reports).doc, Ended(cfg, placed, reports), was.entryPrice.value;
            && |ended| > 0
            && (r.lastRealized == Some(Earned(ended, entry, cfg.multiplier, d))
                <==> Earned(ended[..|ended| - 1], entry, cfg.multiplier, d) == 0.0)
  {
    var ended := Ended(cfg, placed, reports);
    FittingCycleConserves(cfg, was, placed, symbol, id, reports, d);
    RecordedExactly(cfg, was, placed, symbol, id, reports, d);
    ProfitSplits(was.entryPrice.value, ended[|ended| - 1].price, 0.0, 0.0, cfg.multiplier, d);
  }

  /** A fill without a price opens a position whose exit records nothing, whatever it earned. */
  lemma {:induction false} UnpricedEntryRecordsNothing(cfg: Config, doc: Doc, f: Report, g: Report)
    requires (doc.state == EntryPlaced || doc.state == AwaitingEntry) && f.terminal && f.qty > 0.0 && f.price == 0.0
    requires g.terminal && g.qty == f.qty
    ensures var was := On(cfg, doc, EntryFilled(f)).doc;
            var placed := Gate(was, true, was.symbol, was.qty, None, None);
            placed.Some? && On(cfg, placed.value, ExitFilled(g)).doc.lastRealized == Some(0.0)
  {
  }

  lemma {:induction false} EndedHead(cfg: Config, was: Doc, placed: Doc, reports: seq<Report>, d: Direction)
    requires forall i :: 0 <= i < |reports| ==> Heads(was, reports[i], d)
    ensures forall i :: 0 <= i < |Ended(cfg, placed, reports)| ==> Heads(was, Ended(cfg, placed, reports)[i], d)
  {
    if |reports| > 0 {
      EndedHead(cfg, was, placed, reports[..|reports| - 1], d);
    }
  }

  /**
   An exit that needs a retry and sold its first part at another price than the entry: what is recorded
   is not what the exit earned.
   */
  lemma {:induction false} RetriedExitMisreports(cfg: Config, was: Doc, placed: Doc, f: Report, g: Report)
    requires was.state == AwaitingExit && was.direction.Some? && was.entryPrice.Some? && was.entryPrice.value > 0.0
    requires Gate(was, true, was.symbol, was.qty, None, None) == Some(placed) && cfg.multiplier != 0.0
    requires f.terminal && g.terminal && 0.0 < f.qty < was.qty && g.qty == was.qty - f.qty
    requires f.price != was.entryPrice.value
    ensures var r, entry := Exits(cfg, placed, [f, g]).doc, was.entryPrice.value;
            && r.state == FlatState(cfg)
            && r.lastRealized != Some(Earned([f, g], entry, cfg.multiplier, was.direction.value))
  {
    var entry, d := was.entryPrice.value, was.direction.value;
    TwoReports(cfg, placed, f, g);
    RecordedProfit(cfg, was, placed, was.symbol, None, [f, g], d);
    ProfitIsZero(entry, f.price, f.qty, cfg.multiplier, d);
    assert [f, g][..1] == [f];
    EarnedOnce(f, entry, cfg.multiplier, d);
  }

  lemma {:induction false} EarnedOnce(f: Report, entry: real, mult: real, d: Direction)
    ensures Earned([f], entry, mult, d) == Profit(entry, f.price, f.qty, mult, d)
  {
    assert [f][..0] == [];
  }

  /** One order fills in part and the retry fills the rest. */
  lemma {:induction false} TwoReports(cfg: Config, placed: Doc, f: Report, g: Report)
    requires placed.state == ExitPlaced && placed.exitRetries == 0 && placed.orderQty == Some(placed.qty)
    requires f.terminal && g.terminal && 0.0 < f.qty < placed.qty && g.qty == placed.qty - f.qty
    ensures Ended(cfg, placed, [f, g]) == [f, g] && Fits(cfg, placed, [f, g])
    ensures Exits(cfg, placed, [f, g]).doc.state == FlatState(cfg)
  {
    assert [] + [f] == [f] && [f] + [g] == [f, g];
    ExitsAppend(cfg, placed, [], f);
    ExitsAppend(cfg, placed, [f], g);
    PartialExit(cfg, placed, f);
    assert [f, g][..1] == [f] && [f, g][..0] == [];
    assert forall i :: 0 <= i < 2 ==> FitsAt(Exits(cfg, placed, [f, g][..i]).doc, [f, g][i]);
  }

  lemma {:induction false} ExitsAppend(cfg: Config, doc: Doc, reports: seq<Report>, f: Report)
    ensures var before, ended := Exits(cfg, doc, reports).doc, Ended(cfg, doc, reports);
            && Exits(cfg, doc, reports + [f]).doc == OnExitFilled(cfg, before, f).doc
            && Ended(cfg, doc, reports + [f]) == if before.state == ExitPlaced && f.terminal then ended + [f] else ended
  {
    assert (reports + [f])[..|reports|] == reports;
  }

  lemma {:induction false} PartialExit(cfg: Config, placed: Doc, f: Report)
    requires placed.state == ExitPlaced && placed.exitRetries == 0 && f.terminal && 0.0 < f.qty < placed.qty
    ensures var left := placed.qty - f.qty;
            OnExitFilled(cfg, placed, f).doc
            == placed.(qty := left, orderQty := Some(left), filledQty := 0.0, exitRetries := 1)
  {
  }

  lemma {:induction false} ProfitIsZero(entry: real, exit: real, qty: real, mult: real, d: Direction)
    requires qty != 0.0 && mult != 0.0
    ensures Profit(entry, exit, qty, mult, d) == 0.0 <==> entry == exit
  {
    if entry != exit {
      NonZero(exit - entry, qty, mult);
      NonZero(entry - exit, qty, mult);
    }
  }

  lemma {:induction false} NonZero(x: real, y: real, z: real)
    requires x != 0.0 && y != 0.0 && z != 0.0
    ensures x * y * z != 0.0
  {
    assert x * y != 0.0;
  }

  // ---- A whole trade ------------------------------------------------------------------------

  function Opposite(side: Side): Side {
    if side == Buy then Sell else Buy
  }

  /**
   From an entry fill on: whatever sides the exit's reports carry, every retry trades against the entry,
   for what is left of the quantity entered.
   */
  lemma {:induction false} ExitClosesEntry(cfg: Config, doc: Doc, f: Report, placed: Doc, symbol: string,
                                           id: Option<string>, reports: seq<Report>)
    requires (doc.state == EntryPlaced || doc.state == AwaitingEntry) && f.terminal && f.qty > 0.0
    requires Gate(On(cfg, doc, EntryFilled(f)).doc, true, symbol, f.qty, id, None) == Some(placed)
    ensures var was := On(cfg, doc, EntryFilled(f)).doc;
            var r, ended := Exits(cfg, placed, reports), Ended(cfg, placed, reports);
            && was.qty == f.qty && was.entryPrice == Some(f.price) && Tracks(cfg, was, r.doc, ended)
            && RetriesIn(r.effects)
               == Retries(f.qty, ended, if r.doc.state == ExitPlaced then |ended| else |ended| - 1, Opposite(f.side))
  {
    var was := On(cfg, doc, EntryFilled(f)).doc;
    ExitCycleTracks(cfg, was, placed, symbol, id, reports, was.direction.value);
  }

  /** The entry fill handler over a sequence of reports. */
  function Entries(doc: Doc, reports: seq<Report>): Doc {
    if |reports| == 0 then doc else OnEntryFilled(Entries(doc, reports[..|reports| - 1]), reports[|reports| - 1]).doc
  }

  lemma {:induction false} PartialsKeepLine(doc: Doc, reports: seq<Report>)
    requires doc.state == AwaitingEntry && forall i :: 0 <= i < |reports| ==> !reports[i].terminal
    ensures Entries(doc, reports).state == AwaitingEntry && Entries(doc, reports).entryLine == doc.entryLine
  {
    if |reports| > 0 {
      PartialsKeepLine(doc, reports[..|reports| - 1]);
    }
  }

  /**
   An entry order that fills after all, in any number of parts, opens its position: with its entry line when
   it had been timed out, and without when it had been cancelled.
   */
  lemma {:induction false} LateFillKeepsEntryLine(cfg: Config, doc: Doc, parts: seq<Report>, f: Report)
    requires doc.state == EntryPlaced && f.terminal && f.qty != 0.0
    requires forall i :: 0 <= i < |parts| ==> !parts[i].terminal
    ensures var late := Entries(On(cfg, doc, EntryTimeout).doc, parts + [f]);
            var lost := Entries(On(cfg, doc, EntryCancelled).doc, parts + [f]);
            && late.state == lost.state == AwaitingExit && late.qty == lost.qty == f.qty
            && late.entryLine == doc.entryLine && lost.entryLine == None
  {
    PartialsKeepLine(On(cfg, doc, EntryTimeout).doc, parts);
    PartialsKeepLine(On(cfg, doc, EntryCancelled).doc, parts);
    assert (parts + [f])[..|parts|] == parts;
  }
}
