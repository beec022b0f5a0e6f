/**
 What the result for one contract says about its execution rows (ib_trader/engine/lifo_pnl.py, _signed_qty and
 _compute_one), stated on the rows alone: shares bought and sold, money paid, commissions, multipliers.
 */
module RowAccounting {
  import opened Wrappers
  import opened LotMatching
  import opened LotProperties
  import opened AverageCost
  import opened SeedSolver
  import opened LifoPnl
  import opened LifoGuarantees
  import opened PnlRollup

  // ---- Sums over rows ------------------------------------------------------------------

  function Sum(rows: seq<Row>, of: Row -> real): real {
    if |rows| == 0 then 0.0 else of(rows[0]) + Sum(rows[1..], of)
  }

  /** The texts of the two sides. */
  predicate Buys(r: Row) {
    r.side == "BOT" || r.side == "BUY" || r.side == "B"
  }

  predicate Sells(r: Row) {
    r.side == "SLD" || r.side == "SELL" || r.side == "S"
  }

  predicate IsOn(r: Row, side: Side) {
    (side == Bought && Buys(r)) || (side == Sold && Sells(r))
  }

  /** Shares traded on one side. */
  function Shares(side: Side): Row -> real {
    (r: Row) => if IsOn(r, side) then r.shares.GetOr(0.0) else 0.0
  }

  /** Shares traded on one side, at their prices. */
  function Turnover(side: Side): Row -> real {
    (r: Row) => if IsOn(r, side) then r.shares.GetOr(0.0) * r.price.GetOr(0.0) else 0.0
  }

  function Commission(): Row -> real {
    (r: Row) => r.commission.GetOr(0.0)
  }

  /** What a result records for a row, zero when nothing. */
  function RecordedFor(m: map<string, real>): Row -> real {
    (r: Row) => if r.eid in m then m[r.eid] else 0.0
  }

  /** Shares bought less shares sold. */
  function NetBought(rows: seq<Row>): real {
    Sum(rows, Shares(Bought)) - Sum(rows, Shares(Sold))
  }

  /** Money received for shares sold less money paid for shares bought, less commissions. */
  function Proceeds(rows: seq<Row>, mult: real): real {
    mult * (Sum(rows, Turnover(Sold)) - Sum(rows, Turnover(Bought))) - Sum(rows, Commission())
  }

  lemma {:induction false} SumOfInsert(rows: seq<Row>, r: Row, of: Row -> real)
    ensures Sum(Insert(rows, r), of) == Sum(rows, of) + of(r)
  {
    if |rows| > 0 && !Before(r, rows[0]) {
      SumOfInsert(rows[1..], r, of);
      assert Insert(rows, r)[1..] == Insert(rows[1..], r);
    } else {
      assert ([r] + rows)[1..] == rows && [r][1..] == [];
    }
  }

  lemma {:induction false} SumAppend(rows: seq<Row>, r: Row, of: Row -> real)
    ensures Sum(rows + [r], of) == Sum(rows, of) + of(r)
  {
    if |rows| == 0 {
      assert [] + [r] == [r] && [r][1..] == [];
    } else {
      assert (rows + [r])[1..] == rows[1..] + [r];
      SumAppend(rows[1..], r, of);
    }
  }

  /** Sorting changes no sum. */
  lemma {:induction false} SumOfSorted(rows: seq<Row>, of: Row -> real)
    ensures Sum(SortRows(rows), of) == Sum(rows, of)
  {
    if |rows| > 0 {
      var n := |rows| - 1;
      SumOfSorted(rows[..n], of);
      SumOfInsert(SortRows(rows[..n]), rows[n], of);
      SumAppend(rows[..n], rows[n], of);
      assert rows == rows[..n] + [rows[n]];
    }
  }

  lemma {:induction false} SameSums(a: seq<Row>, b: seq<Row>, mult: real)
    requires forall of :: Sum(a, of) == Sum(b, of)
    ensures NetBought(a) == NetBought(b) && Proceeds(a, mult) == Proceeds(b, mult)
  {
    assert Sum(a, Turnover(Sold)) == Sum(b, Turnover(Sold)) && Sum(a, Turnover(Bought)) == Sum(b, Turnover(Bought));
    assert Sum(a, Commission()) == Sum(b, Commission());
  }

  lemma {:induction false} SortedSums(rows: seq<Row>, mult: real)
    ensures NetBought(SortRows(rows)) == NetBought(rows) && Proceeds(SortRows(rows), mult) == Proceeds(rows, mult)
  {
    forall of ensures Sum(SortRows(rows), of) == Sum(rows, of) {
      SumOfSorted(rows, of);
    }
    SameSums(SortRows(rows), rows, mult);
  }

  // ---- From rows to fills ------------------------------------------------------------------

  /** A row with everything a fill needs. */
  predicate Complete(r: Row) {
    (Buys(r) || Sells(r)) && r.shares.Some? && r.shares.value > 0.0 && r.price.Some?
  }

  /** What a row's fill trades: it buys or sells the row's shares at the row's price. */
  lemma {:induction false} FillTrades(r: Row, f: Fill, mult: real)
    requires FillOf(r) == Some(f)
    ensures f.eid == r.eid && f.sq == Shares(Bought)(r) - Shares(Sold)(r)
    ensures Cash(f, mult) == mult * (Turnover(Sold)(r) - Turnover(Bought)(r)) - Commission()(r)
  {
    var x, y := r.shares.value, r.price.value;
    assert x * y * mult == mult * (x * y) && -x * y * mult == mult * (0.0 - x * y);
  }

  lemma {:induction false} ProceedsFirst(rows: seq<Row>, mult: real)
    requires |rows| > 0
    ensures Proceeds(rows, mult)
         == mult * (Turnover(Sold)(rows[0]) - Turnover(Bought)(rows[0])) - Commission()(rows[0])
            + Proceeds(rows[1..], mult)
  {
    var a, b := Turnover(Sold)(rows[0]) - Turnover(Bought)(rows[0]),
                Sum(rows[1..], Turnover(Sold)) - Sum(rows[1..], Turnover(Bought));
    assert mult * (a + b) == mult * a + mult * b;
  }

  lemma {:induction false} FillsTrade(rows: seq<Row>, fills: seq<Fill>, qty: real, mult: real)
    requires |rows| == |fills| && forall i :: 0 <= i < |rows| ==> FillOf(rows[i]) == Some(fills[i])
    ensures QtyAfter(qty, fills) == qty + NetBought(rows) && CashTotal(fills, mult) == Proceeds(rows, mult)
    decreases |rows|
  {
    if |rows| > 0 {
      FillTrades(rows[0], fills[0], mult);
      ProceedsFirst(rows, mult);
      FillsTrade(rows[1..], fills[1..], qty + fills[0].sq, mult);
    }
  }

  lemma {:induction false} RecordedOverRows(rows: seq<Row>, fills: seq<Fill>, m: map<string, real>)
    requires |rows| == |fills| && forall i :: 0 <= i < |rows| ==> rows[i].eid == fills[i].eid
    ensures RecordedTotal(m, fills) == Sum(rows, RecordedFor(m))
  {
    if |rows| > 0 {
      RecordedOverRows(rows[1..], fills[1..], m);
    }
  }

  ghost predicate DistinctRows(rows: seq<Row>) {
    forall i, j :: 0 <= i < j < |rows| ==> rows[i].eid != rows[j].eid
  }

  lemma {:induction false} DistinctInsert(rows: seq<Row>, r: Row)
    requires DistinctRows(rows) && forall i :: 0 <= i < |rows| ==> rows[i].eid != r.eid
    ensures DistinctRows(Insert(rows, r))
  {
    if |rows| > 0 && !Before(r, rows[0]) {
      DistinctInsert(rows[1..], r);
      InsertAdds(rows[1..], r);
      var tail := Insert(rows[1..], r);
      forall i | 0 <= i < |tail| ensures tail[i].eid != rows[0].eid {
        assert tail[i] in tail;
      }
    }
  }

  lemma {:induction false} DistinctSorted(rows: seq<Row>)
    requires DistinctRows(rows)
    ensures DistinctRows(SortRows(rows))
  {
    if |rows| > 0 {
      var n := |rows| - 1;
      var sorted := SortRows(rows[..n]);
      DistinctSorted(rows[..n]);
      SortRowsOrders(rows[..n]);
      forall i | 0 <= i < |sorted| ensures sorted[i].eid != rows[n].eid {
        assert sorted[i] in multiset(rows[..n]);
      }
      DistinctInsert(sorted, rows[n]);
    }
  }

  // ---- The result for a contract ----------------------------------------------------------------

  /** A walk from a seed lot over the rows' fills, and what it comes to in the rows' own numbers. */
  lemma {:induction false} WalkAccounts(rows: seq<Row>, fills: seq<Fill>, mult: real, seedQty: real, c: real,
                                        r: LifoResult)
    requires FillsOf(rows) == Some(fills) && DistinctRows(rows) && mult != 0.0
    requires r == Walk(SeedLots(seedQty, c), map[], fills, mult)
    ensures Net(r.lots) == seedQty + NetBought(rows)
    ensures Sum(rows, RecordedFor(r.realizedByExec))
         == Proceeds(rows, mult) + Basis(r.lots, mult) - Value(seedQty, c, mult)
  {
    var lots := SeedLots(seedQty, c);
    assert forall i :: 0 <= i < |rows| ==> FillOf(rows[i]) == Some(fills[i]);
    assert DistinctIds(fills);
    SeedLotsBasis(seedQty, c, mult);
    WalkHoldsPosition(lots, map[], fills, mult);
    WalkRecordsTotal(lots, map[], fills, mult);
    LifoTotalIs(lots, fills, mult);
    FillsTrade(rows, fills, seedQty, mult);
    RecordedOverRows(rows, fills, r.realizedByExec);
  }

  lemma {:induction false} FillsHaveRows(rows: seq<Row>)
    ensures FillsOf(rows).Some? <==> forall i :: 0 <= i < |rows| ==> Complete(rows[i])
  {
    if |rows| > 0 {
      FillsHaveRows(rows[..|rows| - 1]);
      assert forall i :: 0 <= i < |rows| - 1 ==> rows[..|rows| - 1][i] == rows[i];
    }
  }

  lemma {:induction false} SortedAccounts(rows: seq<Row>, mult: real, seedQty: real, c: real, r: LifoResult)
    requires FillsOf(SortRows(rows)).Some? && DistinctRows(rows) && mult != 0.0
    requires r == Walk(SeedLots(seedQty, c), map[], FillsOf(SortRows(rows)).value, mult)
    ensures Net(r.lots) == seedQty + NetBought(rows)
    ensures Sum(rows, RecordedFor(r.realizedByExec))
         == Proceeds(rows, mult) + Basis(r.lots, mult) - Value(seedQty, c, mult)
  {
    DistinctSorted(rows);
    WalkAccounts(SortRows(rows), FillsOf(SortRows(rows)).value, mult, seedQty, c, r);
    SortedSums(rows, mult);
    SumOfSorted(rows, RecordedFor(r.realizedByExec));
  }

  /**
   What is recorded on the rows is what they brought in, plus the basis of the open lots, less that of the
   position there was before them, at a cost of `c`.
   */
  ghost predicate Accounts(rows: seq<Row>, r: LifoResult, mult: real, held: real, c: real)
    requires r.Lifo?
  {
    Sum(rows, RecordedFor(r.realizedByExec))
    == Proceeds(rows, mult) + Basis(r.lots, mult) - Value(held - NetBought(rows), c, mult)
  }

  lemma {:induction false} HeldAccounts(rows: seq<Row>, mult: real, seedQty: real, c: real, r: LifoResult, held: real)
    requires FillsOf(SortRows(rows)).Some? && DistinctRows(rows) && mult != 0.0
    requires r == Walk(SeedLots(seedQty, c), map[], FillsOf(SortRows(rows)).value, mult) && Net(r.lots) == held
    ensures Accounts(rows, r, mult, held, c)
  {
    SortedAccounts(rows, mult, seedQty, c, r);
    assert held - NetBought(rows) == seedQty;
  }

  /** A LIFO result is a walk over the sorted rows' fills from a seed lot, and holds the position. */
  lemma {:induction false} SeedOf(rows: seq<Row>, position: Position, r: LifoResult, mult: real)
    returns (seedQty: real, c: real)
    requires r == OneContract(rows, position) && r.Lifo? && Some(mult) == MultiplierOf(rows, position)
    ensures mult > 0.0 && FillsOf(SortRows(rows)).Some?
    ensures r == Walk(SeedLots(seedQty, c), map[], FillsOf(SortRows(rows)).value, mult)
    ensures OneSided(r.lots) && Net(r.lots) == position.quantity.GetOr(0.0)
  {
    var sorted := SortRows(rows);
    var fills := FillsOf(sorted).value;
    seedQty := position.quantity.GetOr(0.0) - NetTraded(fills);
    c := WalkOfSeed(seedQty, fills, mult, position.avgCost, ReportsOf(sorted));
    OpenLotsHoldPosition(rows, position);
  }

  /** Every LIFO result accounts for its rows, at some cost of the position there was before them. */
  lemma {:induction false} ContractAccounts(rows: seq<Row>, position: Position, r: LifoResult, mult: real)
    returns (c: real)
    requires r == OneContract(rows, position) && r.Lifo? && Some(mult) == MultiplierOf(rows, position)
    requires DistinctRows(rows)
    ensures mult > 0.0 && OneSided(r.lots) && Net(r.lots) == position.quantity.GetOr(0.0)
    ensures Accounts(rows, r, mult, position.quantity.GetOr(0.0), c)
  {
    var seedQty;
    seedQty, c := SeedOf(rows, position, r, mult);
    HeldAccounts(rows, mult, seedQty, c, r, position.quantity.GetOr(0.0));
  }

  lemma {:induction false} NothingHeld(lots: seq<Holding>, c: real, mult: real)
    requires OneSided(lots) && Net(lots) == 0.0
    ensures lots == [] && Basis(lots, mult) == 0.0 && Value(0.0, c, mult) == 0.0
  {
    assert |lots| > 0 ==> Sign(lots[0].qty) == Sign(Net(lots));
  }

  lemma {:induction false} FlatAccounts(rows: seq<Row>, r: LifoResult, mult: real, held: real, c: real)
    requires r.Lifo? && OneSided(r.lots) && Net(r.lots) == held == 0.0 && NetBought(rows) == 0.0
    requires Accounts(rows, r, mult, held, c)
    ensures r.lots == [] && Earns(rows, r, mult)
  {
    NothingHeld(r.lots, c, mult);
  }

  /** What is recorded is what was received for shares sold, less what was paid for those bought and commissions. */
  ghost predicate Earns(rows: seq<Row>, r: LifoResult, mult: real)
    requires r.Lifo?
  {
    Sum(rows, RecordedFor(r.realizedByExec))
    == mult * (Sum(rows, Turnover(Sold)) - Sum(rows, Turnover(Bought))) - Sum(rows, Commission())
  }

  /**
   A contract that was flat before the rows and is flat after them: the recorded P&L adds up to what was
   received for the shares sold, less what was paid for those bought, less the commissions.
   */
  lemma {:induction false} FlatContractEarns(rows: seq<Row>, position: Position, r: LifoResult, mult: real)
    requires r == OneContract(rows, position) && r.Lifo? && Some(mult) == MultiplierOf(rows, position)
    requires DistinctRows(rows) && position.quantity.GetOr(0.0) == 0.0
    requires Sum(rows, Shares(Bought)) == Sum(rows, Shares(Sold))
    ensures r.lots == [] && Earns(rows, r, mult)
  {
    var c := ContractAccounts(rows, position, r, mult);
    FlatAccounts(rows, r, mult, position.quantity.GetOr(0.0), c);
  }

  // ---- When there is a result --------------------------------------------------------------------

  predicate NoMultiplier(r: Row) {
    r.multiplier.None? || r.multiplier.value == 0.0
  }

  /** The multiplier is that of the first row that has one, and without one the position's. */
  lemma {:induction false} MultiplierIsFirst(rows: seq<Row>, position: Position, i: nat)
    requires i <= |rows| && forall j :: 0 <= j < i ==> NoMultiplier(rows[j])
    ensures i == |rows| ==> MultiplierOf(rows, position) == position.multiplier
    ensures i < |rows| && !NoMultiplier(rows[i]) ==> MultiplierOf(rows, position) == rows[i].multiplier
  {
    if i > 0 {
      assert NoMultiplier(rows[0]);
      MultiplierIsFirst(rows[1..], position, i - 1);
    }
  }

  lemma {:induction false} SortKeepsComplete(rows: seq<Row>)
    ensures (forall i :: 0 <= i < |SortRows(rows)| ==> Complete(SortRows(rows)[i]))
       <==> (forall i :: 0 <= i < |rows| ==> Complete(rows[i]))
  {
    var sorted := SortRows(rows);
    SortRowsOrders(rows);
    forall i | 0 <= i < |sorted| ensures sorted[i] in rows {
      assert sorted[i] in multiset(rows);
    }
    forall i | 0 <= i < |rows| ensures rows[i] in sorted {
      assert rows[i] in multiset(sorted);
    }
    if (forall i :: 0 <= i < |rows| ==> Complete(rows[i])) {
      forall i | 0 <= i < |sorted| ensures Complete(sorted[i]) {
        assert sorted[i] in rows;
      }
    }
    if (forall i :: 0 <= i < |sorted| ==> Complete(sorted[i])) {
      forall i | 0 <= i < |rows| ensures Complete(rows[i]) {
        assert rows[i] in sorted;
      }
    }
  }

  /**
   Which contracts get no LIFO result before any cost is solved: those without a positive multiplier, and then
   those with an incomplete row. Without a position from before the rows all others get one.
   */
  lemma {:induction false} ResultExactly(rows: seq<Row>, position: Position)
    ensures var r, mult := OneContract(rows, position), MultiplierOf(rows, position);
            var complete := forall i :: 0 <= i < |rows| ==> Complete(rows[i]);
            && (mult.None? || mult.value <= 0.0 ==> r == Avg("unknown_multiplier"))
            && (mult.Some? && mult.value > 0.0 && !complete ==> r == Avg("incomplete_fill"))
            && (mult.Some? && mult.value > 0.0 && complete && position.quantity.GetOr(0.0) == NetBought(rows) ==>
                  r.Lifo?)
  {
    var sorted := SortRows(rows);
    FillsHaveRows(sorted);
    SortKeepsComplete(rows);
    SortedSums(rows, 1.0);
    if FillsOf(sorted).Some? {
      FillsTrade(sorted, FillsOf(sorted).value, 0.0, 1.0);
      NetTradedIs(0.0, FillsOf(sorted).value);
    }
  }

  /** A solved cost is refused exactly when it is more than half the first fill's positive price away from it. */
  lemma {:induction false} ImplausibleExactly(c: real, price: real)
    ensures Implausible(c, price) <==> price > 0.0 && (c < 0.5 * price || c > 1.5 * price)
  {
    if price != 0.0 {
      var d := if c - price < 0.0 then price - c else c - price;
      var q := d / price;
      assert q * price == d;
      if price > 0.0 {
        assert q > 0.5 <==> q * price > 0.5 * price;
      } else {
        assert q <= 0.0;
      }
    }
  }

  /**
   With a position from before the rows: the solver's reason when it has no cost, and else a LIFO result, unless
   the cost is too far from the price of the first row walked.
   */
  lemma {:induction false} SeededExactly(rows: seq<Row>, position: Position, mult: real, fills: seq<Fill>,
                                         seedQty: real)
    requires |rows| > 0 && Some(mult) == MultiplierOf(rows, position) && mult > 0.0
    requires FillsOf(SortRows(rows)) == Some(fills)
    requires seedQty == position.quantity.GetOr(0.0) - NetBought(rows) && seedQty != 0.0
    ensures |SortRows(rows)| > 0
    ensures var r, price := OneContract(rows, position), SortRows(rows)[0].price.GetOr(0.0);
            match Solve(seedQty, fills, mult, position.avgCost, ReportsOf(SortRows(rows)))
            case Unsolved(reason) => r == Avg(reason)
            case Cost(c) =>
              if price > 0.0 && (c < 0.5 * price || c > 1.5 * price) then r == Avg("seed_cost_implausible")
              else r.Lifo?
  {
    var sorted := SortRows(rows);
    SortRowsOrders(rows);
    assert |sorted| == |multiset(sorted)| == |rows|;
    SortedSums(rows, 1.0);
    FillsTrade(sorted, fills, 0.0, 1.0);
    NetTradedIs(0.0, fills);
    FirstFill(sorted, fills);
    match Solve(seedQty, fills, mult, position.avgCost, ReportsOf(sorted))
    case Unsolved(_) =>
    case Cost(c) => ImplausibleExactly(c, fills[0].price);
  }

  lemma {:induction false} FirstFill(rows: seq<Row>, fills: seq<Fill>)
    requires |rows| > 0 && FillsOf(rows) == Some(fills)
    ensures |fills| == |rows| && fills[0].price == rows[0].price.GetOr(0.0)
  {
    assert FillOf(rows[0]) == Some(fills[0]);
  }

  // ---- The order of the walk -----------------------------------------------------------------------

  /** `s` comes before `t` as text: it is a proper beginning of it, or smaller where they first differ. */
  ghost predicate TextBefore(s: string, t: string) {
    exists k: nat :: k <= |s| && k < |t| && s[..k] == t[..k] && (k == |s| || s[k] < t[k])
  }

  lemma {:induction false} TextBeforeRest(s: string, t: string)
    requires |s| > 0 && |t| > 0 && s[0] == t[0]
    ensures TextBefore(s, t) <==> TextBefore(s[1..], t[1..])
  {
    assert s == [s[0]] + s[1..] && t == [t[0]] + t[1..];
    if TextBefore(s[1..], t[1..]) {
      var k: nat :| k <= |s[1..]| && k < |t[1..]| && s[1..][..k] == t[1..][..k]
                    && (k == |s[1..]| || s[1..][k] < t[1..][k]);
      assert s[..k + 1] == [s[0]] + s[1..][..k] && t[..k + 1] == [t[0]] + t[1..][..k];
    }
    if TextBefore(s, t) {
      var k: nat :| k <= |s| && k < |t| && s[..k] == t[..k] && (k == |s| || s[k] < t[k]);
      assert k > 0 && s[1..][..k - 1] == s[..k][1..] && t[1..][..k - 1] == t[..k][1..];
    }
  }

  lemma {:induction false} StringLessIsTextBefore(s: string, t: string)
    ensures StringLess(s, t) <==> TextBefore(s, t)
  {
    if |t| > 0 && (|s| == 0 || s[0] < t[0]) {
      assert s[..0] == t[..0];
    } else if |t| > 0 && s[0] == t[0] {
      StringLessIsTextBefore(s[1..], t[1..]);
      TextBeforeRest(s, t);
    } else if k: nat :| k <= |s| && k < |t| && s[..k] == t[..k] && (k == |s| || s[k] < t[k]) {
      assert k > 0 ==> s[..k][0] == t[..k][0];
    }
  }

  /** The rows are walked by time, and rows of one time by the text order of their ids. */
  lemma {:induction false} WalkedInOrder(rows: seq<Row>, i: nat, j: nat)
    requires i < j < |SortRows(rows)|
    ensures var a, b := SortRows(rows)[i], SortRows(rows)[j];
            a.time < b.time || (a.time == b.time && !TextBefore(b.eid, a.eid))
  {
    SortRowsOrders(rows);
    StringLessIsTextBefore(SortRows(rows)[j].eid, SortRows(rows)[i].eid);
  }
}
