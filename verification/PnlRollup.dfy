/**
 The per-contract P&L rollup (ib_trader/engine/pnl_rollup.py) over the LIFO results of all
 contracts (`compute_lifo`), and the round trip between the LIFO and the broker's figures.
 Times are microseconds of the server's wall clock, which has one fixed offset.
 */
module PnlRollup {
  import opened Wrappers
  import opened LotMatching
  import opened LotProperties
  import opened AverageCost
  import opened SeedSolver
  import opened LifoPnl
  import opened LifoGuarantees

  // ---- All contracts ---------------------------------------------------------------

  predicate IsOf(r: Row, sym: string) {
    r.isFuture && r.symbol == sym
  }

  /** The futures rows of one contract, in the order received. */
  function RowsOf(executions: seq<Row>, sym: string): seq<Row> {
    if |executions| == 0 then []
    else
      var before, last := RowsOf(executions[..|executions| - 1], sym), executions[|executions| - 1];
      if IsOf(last, sym) then before + [last] else before
  }

  function PositionOf(positions: map<string, Position>, sym: string): Position {
    if sym in positions then positions[sym] else NO_POSITION
  }

  /** LIFO-match every futures contract in the executions. */
  method ComputeLifo(executions: seq<Row>, positions: map<string, Position>) returns (out: map<string, LifoResult>)
    ensures forall sym :: sym in out <==> sym != "" && RowsOf(executions, sym) != []
    ensures forall sym :: sym in out ==>
              out[sym] == OneContract(RowsOf(executions, sym), PositionOf(positions, sym))
  {
    var bySym := GroupRows(executions);
    out := map[];
    var left := bySym.Keys;
    while left != {}
      invariant left <= bySym.Keys && out.Keys == bySym.Keys - left
      invariant forall sym :: sym in out ==> out[sym] == OneContract(bySym[sym], PositionOf(positions, sym))
      decreases |left|
    {
      var sym :| sym in left;
      var r := ComputeOne(bySym[sym], PositionOf(positions, sym));
      out := out[sym := r];
      left := left - {sym};
    }
  }

  /** The futures rows by contract. */
  method GroupRows(executions: seq<Row>) returns (bySym: map<string, seq<Row>>)
    ensures forall sym :: sym in bySym <==> sym != "" && RowsOf(executions, sym) != []
    ensures forall sym :: sym in bySym ==> bySym[sym] == RowsOf(executions, sym)
  {
    bySym := map[];
    for i := 0 to |executions|
      invariant forall sym :: sym in bySym <==> sym != "" && RowsOf(executions[..i], sym) != []
      invariant forall sym :: sym in bySym ==> bySym[sym] == RowsOf(executions[..i], sym)
    {
      var ex := executions[i];
      assert executions[..i + 1][..i] == executions[..i];
      if ex.isFuture && ex.symbol != "" {
        var rows := if ex.symbol in bySym then bySym[ex.symbol] else [];
        bySym := bySym[ex.symbol := rows + [ex]];
      }
    }
    assert executions[..|executions|] == executions;
  }

  // ---- Windows ------------------------------------------------------------------------

  const HOUR := 3_600_000_000
  const DAY := 24 * HOUR

  /** Most recent occurrence of the session's start hour. */
  function SessionStart(now: int, hour: nat): int
    requires hour < 24
  {
    var anchor := now - now % DAY + hour * HOUR;
    if now < anchor then anchor - DAY else anchor
  }

  /** The session began at its hour of the day, no more than a day ago, and no later time did. */
  lemma {:induction false} SessionStartIsLatest(now: int, hour: nat, t: int)
    requires hour < 24
    ensures var s := SessionStart(now, hour);
            && s % 86_400_000_000 == hour * 3_600_000_000 && s <= now < s + 86_400_000_000
            && (t % 86_400_000_000 == hour * 3_600_000_000 && t <= now ==> t <= s)
            && (t >= s ==> t >= now - 86_400_000_000)
  {
    var s := SessionStart(now, hour);
    assert s % DAY == hour * HOUR by {
      var k := if now < now - now % DAY + hour * HOUR then now / DAY - 1 else now / DAY;
      assert s == k * DAY + hour * HOUR;
    }
    if t % DAY == hour * HOUR && s < t {
      assert (t - s) == DAY * (t / DAY - s / DAY);
      assert t / DAY - s / DAY >= 1;
    }
  }

  // ---- The rollup -----------------------------------------------------------------------

  datatype Slot = Slot(pnl24h: real, pnlSession: Option<real>, ib24h: real, ibSession: Option<real>,
                       basis: string, isFuture: bool)

  datatype Window = Window(cutoff24h: int, sessionStart: int)

  /** The LIFO result the row's P&L is taken from, if any. */
  predicate UsesLifo(ex: Row, lifo: map<string, LifoResult>) {
    ex.isFuture && ex.symbol in lifo && lifo[ex.symbol].Lifo?
  }

  function PnlOf(ex: Row, lifo: map<string, LifoResult>): Option<real> {
    if UsesLifo(ex, lifo) then
      var m := lifo[ex.symbol].realizedByExec;
      if ex.eid in m then Some(m[ex.eid]) else None
    else ex.realized
  }

  predicate Skipped(ex: Row, lifo: map<string, LifoResult>) {
    ex.symbol == "" || (PnlOf(ex, lifo).None? && ex.realized.None?)
  }

  function Add(sum: real, val: Option<real>, counts: bool): real {
    if counts then sum + val.GetOr(0.0) else sum
  }

  function AddSession(sum: Option<real>, val: Option<real>, counts: bool): Option<real> {
    if counts && val.Some? then Some(sum.GetOr(0.0) + val.value) else sum
  }

  function SlotFor(slots: map<string, Slot>, ex: Row, lifo: map<string, LifoResult>): Slot {
    if ex.symbol in slots then slots[ex.symbol]
    else Slot(0.0, None, 0.0, None, if UsesLifo(ex, lifo) then "lifo" else "avg", ex.isFuture)
  }

  /** The slots after one more execution. */
  function RollRow(slots: map<string, Slot>, ex: Row, w: Window, lifo: map<string, LifoResult>): map<string, Slot> {
    if Skipped(ex, lifo) then slots
    else
      slots[ex.symbol := AddRow(SlotFor(slots, ex, lifo), ex, PnlOf(ex, lifo), w)]
  }

  /** A slot with one more execution's P&L, on its contract's basis and on the broker's. */
  function AddRow(slot: Slot, ex: Row, pnl: Option<real>, w: Window): Slot {
    var in24h, inSession := ex.time >= w.cutoff24h, ex.isFuture && ex.time >= w.sessionStart;
    var session := AddSession(slot.pnlSession, pnl, inSession);
    slot.(pnl24h := Add(slot.pnl24h, pnl, in24h),
          pnlSession := if inSession && session.None? then Some(0.0) else session,
          ib24h := Add(slot.ib24h, ex.realized, in24h),
          ibSession := AddSession(slot.ibSession, ex.realized, inSession))
  }

  function Roll(executions: seq<Row>, w: Window, lifo: map<string, LifoResult>): map<string, Slot> {
    if |executions| == 0 then map[]
    else RollRow(Roll(executions[..|executions| - 1], w, lifo), executions[|executions| - 1], w, lifo)
  }

  predicate HasSignal(slot: Slot) {
    slot.pnl24h != 0.0 || slot.pnlSession.Some? || slot.ib24h != 0.0
  }

  method ComputePnlRollup(executions: seq<Row>, now: int, hour: nat, lifo: map<string, LifoResult>)
    returns (rollup: map<string, Slot>)
    requires hour < 24
    ensures var slots := Roll(executions, Window(now - DAY, SessionStart(now, hour)), lifo);
            rollup == map sym | sym in slots && HasSignal(slots[sym]) :: slots[sym]
  {
    var w := Window(now - DAY, SessionStart(now, hour));
    var slots: map<string, Slot> := map[];
    for i := 0 to |executions|
      invariant slots == Roll(executions[..i], w, lifo)
    {
      var ex := executions[i];
      assert executions[..i + 1][..i] == executions[..i];
      if ex.symbol == "" {
        continue;
      }
      var pnl := PnlOf(ex, lifo);
      if pnl.None? && ex.realized.None? {
        continue;
      }
      var slot := UpdateSlot(SlotFor(slots, ex, lifo), ex, pnl, w);
      slots := slots[ex.symbol := slot];
    }
    assert executions[..|executions|] == executions;
    rollup := map sym | sym in slots && HasSignal(slots[sym]) :: slots[sym];
  }

  method UpdateSlot(slot: Slot, ex: Row, pnl: Option<real>, w: Window) returns (slot': Slot)
    ensures slot' == AddRow(slot, ex, pnl, w)
  {
    slot' := slot;
    var inSession := ex.isFuture && ex.time >= w.sessionStart;
    if pnl.Some? {
      if ex.time >= w.cutoff24h {
        slot' := slot'.(pnl24h := slot'.pnl24h + pnl.value);
      }
      if inSession {
        slot' := slot'.(pnlSession := Some(slot'.pnlSession.GetOr(0.0) + pnl.value));
      }
    }
    if ex.realized.Some? {
      if ex.time >= w.cutoff24h {
        slot' := slot'.(ib24h := slot'.ib24h + ex.realized.value);
      }
      if inSession {
        slot' := slot'.(ibSession := Some(slot'.ibSession.GetOr(0.0) + ex.realized.value));
      }
    }
    if inSession && slot'.pnlSession.None? {
      slot' := slot'.(pnlSession := Some(0.0));
    }
  }

  // ---- What a slot sums ---------------------------------------------------------------------

  function Within(ex: Row, sym: string, from: int, v: Option<real>): real {
    if ex.symbol == sym && ex.time >= from then v.GetOr(0.0) else 0.0
  }

  /** The contract's P&L since `from`, on the basis its rows use. */
  function PnlSince(executions: seq<Row>, sym: string, from: int, lifo: map<string, LifoResult>): real {
    if |executions| == 0 then 0.0
    else
      var last := executions[|executions| - 1];
      PnlSince(executions[..|executions| - 1], sym, from, lifo) + Within(last, sym, from, PnlOf(last, lifo))
  }

  /** The contract's P&L since `from`, as the broker reported it. */
  function BrokerPnlSince(executions: seq<Row>, sym: string, from: int): real {
    if |executions| == 0 then 0.0
    else
      var last := executions[|executions| - 1];
      BrokerPnlSince(executions[..|executions| - 1], sym, from) + Within(last, sym, from, last.realized)
  }

  /** A contract's 24 h figures; zero when it has no slot. */
  function Figures(slots: map<string, Slot>, sym: string): (real, real) {
    if sym in slots then (slots[sym].pnl24h, slots[sym].ib24h) else (0.0, 0.0)
  }

  /** A contract's 24 h figures are the sums over its executions in the window, on either basis. */
  lemma {:induction false} SlotSums(executions: seq<Row>, w: Window, lifo: map<string, LifoResult>, sym: string)
    requires sym != ""
    ensures Figures(Roll(executions, w, lifo), sym)
         == (PnlSince(executions, sym, w.cutoff24h, lifo), BrokerPnlSince(executions, sym, w.cutoff24h))
  {
    if |executions| > 0 {
      SlotSums(executions[..|executions| - 1], w, lifo, sym);
    }
  }

  /** Dropping the slots without a signal drops no P&L. */
  lemma {:induction false} FiguresOfRollup(slots: map<string, Slot>, sym: string)
    ensures Figures(map k | k in slots && HasSignal(slots[k]) :: slots[k], sym) == Figures(slots, sym)
  {
  }

  /** A futures contract's P&L since `from`, on the basis its rows use. */
  function SessionPnlSince(executions: seq<Row>, sym: string, from: int, lifo: map<string, LifoResult>): real {
    if |executions| == 0 then 0.0
    else
      var last := executions[|executions| - 1];
      SessionPnlSince(executions[..|executions| - 1], sym, from, lifo)
      + if last.isFuture && last.symbol == sym && last.time >= from then PnlOf(last, lifo).GetOr(0.0) else 0.0
  }

  /** A futures contract's P&L since `from`, as the broker reported it. */
  function SessionBrokerPnlSince(executions: seq<Row>, sym: string, from: int): real {
    if |executions| == 0 then 0.0
    else
      var last := executions[|executions| - 1];
      SessionBrokerPnlSince(executions[..|executions| - 1], sym, from)
      + if last.isFuture && last.symbol == sym && last.time >= from then last.realized.GetOr(0.0) else 0.0
  }

  /** Session figures, which only futures have, sum over a part of the 24 h window. */
  lemma {:induction false} SessionSums(executions: seq<Row>, w: Window, lifo: map<string, LifoResult>, sym: string)
    requires sym != ""
    ensures var slots := Roll(executions, w, lifo);
            (if sym in slots then slots[sym].pnlSession.GetOr(0.0) else 0.0,
             if sym in slots then slots[sym].ibSession.GetOr(0.0) else 0.0)
            == (SessionPnlSince(executions, sym, w.sessionStart, lifo),
                SessionBrokerPnlSince(executions, sym, w.sessionStart))
  {
    if |executions| > 0 {
      SessionSums(executions[..|executions| - 1], w, lifo, sym);
    }
  }

  // ---- A round trip inside the window ---------------------------------------------------------

  /** What the rows differ by: recorded LIFO P&L less the broker's realized P&L. */
  function Gap(rows: seq<Row>, m: map<string, real>): real {
    if |rows| == 0 then 0.0
    else Gap(rows[..|rows| - 1], m) + RowGap(rows[|rows| - 1], m)
  }

  function RowGap(r: Row, m: map<string, real>): real {
    Lookup(m, r.eid) - r.realized.GetOr(0.0)
  }

  lemma {:induction false} GapFirst(rows: seq<Row>, m: map<string, real>)
    requires |rows| > 0
    ensures Gap(rows, m) == RowGap(rows[0], m) + Gap(rows[1..], m)
  {
    if |rows| > 1 {
      GapFirst(rows[..|rows| - 1], m);
      assert rows[1..][..|rows| - 2] == rows[..|rows| - 1][1..];
    }
  }

  lemma {:induction false} GapInsert(rows: seq<Row>, r: Row, m: map<string, real>)
    ensures Gap(Insert(rows, r), m) == Gap(rows, m) + RowGap(r, m)
  {
    var all := Insert(rows, r);
    GapFirst(all, m);
    if |rows| > 0 {
      GapFirst(rows, m);
      if Before(r, rows[0]) {
        assert all[1..] == rows;
      } else {
        assert all[1..] == Insert(rows[1..], r);
        GapInsert(rows[1..], r, m);
      }
    }
  }

  lemma {:induction false} GapSorted(rows: seq<Row>, m: map<string, real>)
    ensures Gap(SortRows(rows), m) == Gap(rows, m)
  {
    if |rows| > 0 {
      GapSorted(rows[..|rows| - 1], m);
      GapInsert(SortRows(rows[..|rows| - 1]), rows[|rows| - 1], m);
    }
  }

  /** The two bases of a contract differ by the gap of its futures rows. */
  lemma {:induction false} BasesDifferByGap(executions: seq<Row>, sym: string, from: int, lifo: map<string, LifoResult>)
    requires sym in lifo && lifo[sym].Lifo?
    requires forall i :: 0 <= i < |executions| && IsOf(executions[i], sym) ==> executions[i].time >= from
    ensures PnlSince(executions, sym, from, lifo) - BrokerPnlSince(executions, sym, from)
         == Gap(RowsOf(executions, sym), lifo[sym].realizedByExec)
  {
    if |executions| > 0 {
      var before, last := executions[..|executions| - 1], executions[|executions| - 1];
      BasesDifferByGap(before, sym, from, lifo);
      if IsOf(last, sym) {
        assert (RowsOf(before, sym) + [last])[..|RowsOf(before, sym)|] == RowsOf(before, sym);
      }
    }
  }

  /** Sum of what the broker reported on the fills. */
  function ReportedTotal(ib: Reports, fills: seq<Fill>): real {
    if |fills| == 0 then 0.0 else Reported(ib, fills[0].eid).GetOr(0.0) + ReportedTotal(ib, fills[1..])
  }

  /** The broker reported nothing, or zero, on the fills that opened or added. */
  predicate OpenersUnreported(qty: real, fills: seq<Fill>, ib: Reports)
    decreases |fills|
  {
    |fills| == 0
    || ((Opens(qty, fills[0]) ==> Reported(ib, fills[0].eid).GetOr(0.0) == 0.0)
        && OpenersUnreported(qty + fills[0].sq, fills[1..], ib))
  }

  lemma {:induction false} ReportedIsAverageTotal(p: Average, fills: seq<Fill>, mult: real, ib: Reports)
    requires Traded(fills) && mult != 0.0
    requires ReportsWalk(p, fills, mult, ib) && OpenersUnreported(p.qty, fills, ib)
    ensures ReportedTotal(ib, fills) == AverageTotal(p, fills, mult)
    decreases |fills|
  {
    if |fills| > 0 {
      ReportedIsAverageTotal(AverageStep(p, fills[0], mult).pos, fills[1..], mult, ib);
    }
  }

  lemma {:induction false} ReportOfRow(rows: seq<Row>, i: nat)
    requires i < |rows| && forall j, k :: 0 <= j < k < |rows| ==> rows[j].eid != rows[k].eid
    ensures Reported(ReportsOf(rows), rows[i].eid) == rows[i].realized
  {
    if i < |rows| - 1 {
      ReportOfRow(rows[..|rows| - 1], i);
    }
  }

  lemma {:induction false} GapOfFills(rows: seq<Row>, fills: seq<Fill>, ib: Reports, m: map<string, real>)
    requires |rows| == |fills|
    requires forall i :: 0 <= i < |rows| ==>
               rows[i].eid == fills[i].eid && Reported(ib, rows[i].eid) == rows[i].realized
    ensures Gap(rows, m) == RecordedTotal(m, fills) - ReportedTotal(ib, fills)
  {
    if |rows| > 0 {
      GapFirst(rows, m);
      GapOfFills(rows[1..], fills[1..], ib, m);
    }
  }

  lemma {:induction false} NetTradedIs(qty: real, fills: seq<Fill>)
    ensures QtyAfter(qty, fills) == qty + NetTraded(fills)
  {
    if |fills| > 0 {
      var n := |fills| - 1;
      NetTradedIs(qty, fills[..n]);
      QtyAfterLast(qty, fills);
    }
  }

  lemma {:induction false} QtyAfterLast(qty: real, fills: seq<Fill>)
    requires |fills| > 0
    ensures QtyAfter(qty, fills) == QtyAfter(qty, fills[..|fills| - 1]) + fills[|fills| - 1].sq
    decreases |fills|
  {
    if |fills| > 1 {
      QtyAfterLast(qty + fills[0].sq, fills[1..]);
      assert fills[1..][..|fills| - 2] == fills[..|fills| - 1][1..];
    }
  }

  /** A LIFO result is a walk from the seed lots at some cost. */
  lemma {:induction false} WalkOfResult(unsorted: seq<Row>, position: Position) returns (fills: seq<Fill>, mult: real,
                                                                                         seedQty: real, c: real)
    requires OneContract(unsorted, position).Lifo?
    ensures Traded(fills) && mult != 0.0 && seedQty + NetTraded(fills) == position.quantity.GetOr(0.0)
    ensures OneContract(unsorted, position) == Walk(SeedLots(seedQty, c), map[], fills, mult)
  {
    var rows := SortRows(unsorted);
    fills, mult := FillsOf(rows).value, MultiplierOf(unsorted, position).value;
    seedQty := position.quantity.GetOr(0.0) - NetTraded(fills);
    c := WalkOfSeed(seedQty, fills, mult, position.avgCost, ReportsOf(rows));
  }

  lemma {:induction false} WalkOfSeed(seedQty: real, fills: seq<Fill>, mult: real, ibAvg: Option<real>, ib: Reports)
    returns (c: real)
    requires Traded(fills) && mult != 0.0 && FromSeed(seedQty, fills, mult, ibAvg, ib).Lifo?
    ensures FromSeed(seedQty, fills, mult, ibAvg, ib) == Walk(SeedLots(seedQty, c), map[], fills, mult)
  {
    if seedQty == 0.0 {
      c := 0.0;
    } else {
      c := Solve(seedQty, fills, mult, ibAvg, ib).cost;
    }
  }

  /** Every LIFO result holds the position: its open lots are of one side and add up to the quantity held. */
  lemma {:induction false} OpenLotsHoldPosition(unsorted: seq<Row>, position: Position)
    requires OneContract(unsorted, position).Lifo?
    ensures var lots := OneContract(unsorted, position).lots;
            OneSided(lots) && Net(lots) == position.quantity.GetOr(0.0)
  {
    var fills, mult, seedQty, c := WalkOfResult(unsorted, position);
    NetTradedIs(seedQty, fills);
    SeedLotsBasis(seedQty, c, mult);
    WalkHoldsPosition(SeedLots(seedQty, c), map[], fills, mult);
  }

  /** The fills of one contract, its multiplier and its seed, as `OneContract` reads them. */
  datatype Contract = Contract(rows: seq<Row>, fills: seq<Fill>, mult: real, seedQty: real)

  predicate Reads(k: Contract, unsorted: seq<Row>, position: Position) {
    && k.rows == SortRows(unsorted)
    && FillsOf(k.rows) == Some(k.fills)
    && MultiplierOf(unsorted, position) == Some(k.mult) && k.mult > 0.0
    && k.seedQty == position.quantity.GetOr(0.0) - NetTraded(k.fills)
  }

  /** The broker's numbers for the contract are an average-cost walk from a seed at cost `c`. */
  predicate BrokerWalks(k: Contract, position: Position, c: real)
    requires Traded(k.fills) && k.mult != 0.0
  {
    var ib, start := ReportsOf(k.rows), Average(k.seedQty, c);
    && ReportsWalk(start, k.fills, k.mult, ib)
    && OpenersUnreported(k.seedQty, k.fills, ib)
    && (!EverCrosses(k.seedQty, k.fills) ==>
          position.avgCost == BrokerAvgCost(AverageAfter(start, k.fills, k.mult)))
  }

  /** A LIFO result was walked from the seed's true cost. */
  lemma {:induction false} WalkedFromSeed(unsorted: seq<Row>, position: Position, k: Contract, c: real)
    requires Reads(k, unsorted, position) && BrokerWalks(k, position, c)
    requires OneContract(unsorted, position).Lifo?
    ensures OneContract(unsorted, position) == Walk(SeedLots(k.seedQty, c), map[], k.fills, k.mult)
  {
    if k.seedQty != 0.0 {
      if !EverCrosses(k.seedQty, k.fills) {
        StaysOnSide(k.seedQty, k.fills);
        AverageTotalIs(Average(k.seedQty, c), k.fills, k.mult);
      }
      SolverInvertsWalk(k.seedQty, c, k.fills, k.mult, position.avgCost, ReportsOf(k.rows));
    }
  }

  /** So its open lots hold the position, and it records the LIFO total of that walk. */
  lemma {:induction false} ContractWalk(unsorted: seq<Row>, position: Position, k: Contract, c: real, r: LifoResult)
    requires Reads(k, unsorted, position) && BrokerWalks(k, position, c) && DistinctIds(k.fills)
    requires r == OneContract(unsorted, position) && r.Lifo?
    ensures r == Walk(SeedLots(k.seedQty, c), map[], k.fills, k.mult)
    ensures Net(r.lots) == position.quantity.GetOr(0.0)
    ensures RecordedTotal(r.realizedByExec, k.fills) == LifoTotal(SeedLots(k.seedQty, c), k.fills, k.mult)
  {
    WalkedFromSeed(unsorted, position, k, c);
    OpenLotsHoldPosition(unsorted, position);
    SeedLotsBasis(k.seedQty, c, k.mult);
    WalkRecordsTotal(SeedLots(k.seedQty, c), map[], k.fills, k.mult);
  }

  lemma {:induction false} RowsMatchFills(rows: seq<Row>, fills: seq<Fill>)
    requires FillsOf(rows) == Some(fills) && DistinctIds(fills)
    ensures forall i :: 0 <= i < |rows| ==>
              rows[i].eid == fills[i].eid && Reported(ReportsOf(rows), rows[i].eid) == rows[i].realized
  {
    assert forall i :: 0 <= i < |rows| ==> FillOf(rows[i]) == Some(fills[i]);
    assert forall i :: 0 <= i < |rows| ==> rows[i].eid == fills[i].eid;
    forall i | 0 <= i < |rows| ensures Reported(ReportsOf(rows), rows[i].eid) == rows[i].realized {
      ReportOfRow(rows, i);
    }
  }

  lemma {:induction false} ContractGap(unsorted: seq<Row>, position: Position, k: Contract, c: real)
    requires Reads(k, unsorted, position) && BrokerWalks(k, position, c) && DistinctIds(k.fills)
    requires OneContract(unsorted, position).Lifo? && position.quantity.GetOr(0.0) == 0.0
    ensures Gap(unsorted, OneContract(unsorted, position).realizedByExec) == 0.0
  {
    var ib, m := ReportsOf(k.rows), OneContract(unsorted, position).realizedByExec;
    ContractWalk(unsorted, position, k, c, OneContract(unsorted, position));
    NetTradedIs(k.seedQty, k.fills);
    OnlyTheSplitDiffers(k.seedQty, c, k.fills, k.mult, 0.0);
    ReportedIsAverageTotal(Average(k.seedQty, c), k.fills, k.mult, ib);
    RowsMatchFills(k.rows, k.fills);
    GapOfFills(k.rows, k.fills, ib, m);
    GapSorted(unsorted, m);
  }

  /**
   End to end: when a contract is flat, its futures executions are all inside the window, and the
   broker's numbers are an average-cost walk from some true seed cost, the rollup's LIFO figure
   equals the broker's.
   */
  lemma {:induction false} RoundTripAgrees(executions: seq<Row>, sym: string, position: Position, k: Contract, c: real,
                        now: int, hour: nat, lifo: map<string, LifoResult>)
    requires hour < 24 && sym != "" && sym in lifo
    requires var rows := RowsOf(executions, sym);
             && lifo[sym] == OneContract(rows, position) && lifo[sym].Lifo?
             && Reads(k, rows, position) && BrokerWalks(k, position, c) && DistinctIds(k.fills)
    requires position.quantity.GetOr(0.0) == 0.0
    requires forall i :: 0 <= i < |executions| && IsOf(executions[i], sym) ==> executions[i].time >= now - DAY
    ensures var slots := Roll(executions, Window(now - DAY, SessionStart(now, hour)), lifo);
            var figures := Figures(map s | s in slots && HasSignal(slots[s]) :: slots[s], sym);
            figures.0 == figures.1
  {
    var w := Window(now - DAY, SessionStart(now, hour));
    ContractGap(RowsOf(executions, sym), position, k, c);
    BasesDifferByGap(executions, sym, now - DAY, lifo);
    SlotSums(executions, w, lifo, sym);
    FiguresOfRollup(Roll(executions, w, lifo), sym);
  }
}
