/**
 Per-contract LIFO P&L from the visible executions (`_compute_one`, `compute_lifo`), and
 what it promises against the broker's average-cost numbers.
 */
module LifoPnl {
  import opened Wrappers
  import opened Reals
  import opened LotMatching
  import opened LotProperties
  import opened AverageCost
  import opened SeedSolver

  datatype Side = Bought | Sold | Unknown

  /** One execution row: its side in capitals, its numbers parsed (None when missing or unparseable). */
  datatype Row = Row(eid: string, time: int, symbol: string, isFuture: bool, side: string,
                     shares: Option<real>, price: Option<real>, commission: Option<real>,
                     realized: Option<real>, multiplier: Option<real>)

  datatype Position = Position(quantity: Option<real>, avgCost: Option<real>, multiplier: Option<real>)

  const NO_POSITION := Position(None, None, None)
  const SEED_SANITY_RATIO := 0.5

  /** Outcome for one contract: LIFO P&L per exec id and the open lots, or the reason for none. */
  datatype LifoResult =
    | Lifo(realizedByExec: map<string, real>, lots: seq<Holding>)
    | Avg(reason: string)

  // ---- Sorting the rows --------------------------------------------------------

  predicate StringLess(s: string, t: string) {
    if |t| == 0 then false
    else if |s| == 0 then true
    else s[0] < t[0] || (s[0] == t[0] && StringLess(s[1..], t[1..]))
  }

  /** Order of the sort key (exec time, exec id). */
  predicate Before(r: Row, s: Row) {
    r.time < s.time || (r.time == s.time && StringLess(r.eid, s.eid))
  }

  /** Insert a row after the rows it does not come before. */
  function Insert(rows: seq<Row>, r: Row): seq<Row> {
    if |rows| == 0 then [r]
    else if Before(r, rows[0]) then [r] + rows
    else [rows[0]] + Insert(rows[1..], r)
  }

  /** The rows in order of time, then exec id; rows with equal keys keep their order. */
  function SortRows(rows: seq<Row>): seq<Row> {
    if |rows| == 0 then [] else Insert(SortRows(rows[..|rows| - 1]), rows[|rows| - 1])
  }

  ghost predicate Ordered(rows: seq<Row>) {
    forall i, j :: 0 <= i < j < |rows| ==> !Before(rows[j], rows[i])
  }

  lemma {:induction false} StringLessOrders(s: string, t: string, u: string)
    ensures !(StringLess(s, t) && StringLess(t, s))
    ensures !StringLess(t, s) && !StringLess(u, t) ==> !StringLess(u, s)
    ensures StringLess(s, t) && !StringLess(u, t) ==> StringLess(s, u)
  {
    if |s| > 0 && |t| > 0 && |u| > 0 {
      StringLessOrders(s[1..], t[1..], u[1..]);
    } else if |s| > 0 && |t| > 0 {
      StringLessOrders(s[1..], t[1..], []);
    }
  }

  lemma {:induction false} InsertAdds(rows: seq<Row>, r: Row)
    ensures multiset(Insert(rows, r)) == multiset(rows) + multiset{r}
    ensures forall x :: x in Insert(rows, r) ==> x in rows || x == r
  {
    if |rows| > 0 {
      assert rows == [rows[0]] + rows[1..];
      if !Before(r, rows[0]) {
        InsertAdds(rows[1..], r);
      }
    }
  }

  lemma {:induction false} InsertOrders(rows: seq<Row>, r: Row)
    requires Ordered(rows)
    ensures Ordered(Insert(rows, r))
  {
    if |rows| == 0 {
    } else if Before(r, rows[0]) {
      forall i | 0 <= i < |rows| ensures !Before(rows[i], r) {
        StringLessOrders(r.eid, rows[0].eid, rows[i].eid);
        StringLessOrders(r.eid, rows[i].eid, r.eid);
      }
    } else {
      var tail := Insert(rows[1..], r);
      InsertOrders(rows[1..], r);
      InsertAdds(rows[1..], r);
      forall i | 0 <= i < |tail| ensures !Before(tail[i], rows[0]) {
        assert tail[i] in tail;
      }
    }
  }

  lemma {:induction false} SortIsOrdered(rows: seq<Row>)
    ensures Ordered(SortRows(rows))
  {
    if |rows| > 0 {
      SortIsOrdered(rows[..|rows| - 1]);
      InsertOrders(SortRows(rows[..|rows| - 1]), rows[|rows| - 1]);
    }
  }

  lemma {:induction false} SortKeepsRows(rows: seq<Row>)
    ensures multiset(SortRows(rows)) == multiset(rows)
  {
    if |rows| > 0 {
      var before, r := rows[..|rows| - 1], rows[|rows| - 1];
      SortKeepsRows(before);
      InsertAdds(SortRows(before), r);
      AsMultiset(rows, before, r);
    }
  }

  lemma {:induction false} AsMultiset(rows: seq<Row>, before: seq<Row>, r: Row)
    requires |rows| > 0 && before == rows[..|rows| - 1] && r == rows[|rows| - 1]
    ensures multiset(rows) == multiset(before) + multiset{r}
  {
    assert rows == before + [r];
  }

  /** The walk takes the executions in order of time and exec id, each exactly once. */
  lemma {:induction false} SortRowsOrders(rows: seq<Row>)
    ensures Ordered(SortRows(rows)) && multiset(SortRows(rows)) == multiset(rows)
  {
    SortIsOrdered(rows);
    SortKeepsRows(rows);
  }

  /** The rows with the same sort key as `key`. */
  function Tied(rows: seq<Row>, key: Row): seq<Row> {
    if |rows| == 0 then []
    else
      var rest := Tied(rows[1..], key);
      if rows[0].time == key.time && rows[0].eid == key.eid then [rows[0]] + rest else rest
  }

  lemma {:induction false} TiedAppend(rows: seq<Row>, r: Row, key: Row)
    ensures Tied(rows + [r], key) == Tied(rows, key) + Tied([r], key)
  {
    if |rows| == 0 {
      assert rows + [r] == [r];
    } else {
      assert (rows + [r])[1..] == rows[1..] + [r];
      TiedAppend(rows[1..], r, key);
    }
  }

  lemma {:induction false} InsertIsStable(rows: seq<Row>, r: Row, key: Row)
    requires Ordered(rows)
    ensures Tied(Insert(rows, r), key) == Tied(rows, key) + Tied([r], key)
  {
    if |rows| == 0 {
    } else if Before(r, rows[0]) {
      assert ([r] + rows)[1..] == rows;
      if r.time == key.time && r.eid == key.eid {
        NoneTied(rows, r, key);
      }
      assert [r][1..] == [];
    } else {
      InsertIsStable(rows[1..], r, key);
      assert ([rows[0]] + Insert(rows[1..], r))[1..] == Insert(rows[1..], r);
    }
  }

  lemma {:induction false} NoneTied(rows: seq<Row>, r: Row, key: Row)
    requires Ordered(rows) && r.time == key.time && r.eid == key.eid && (|rows| > 0 ==> Before(r, rows[0]))
    ensures Tied(rows, key) == []
  {
    if |rows| > 0 {
      StringLessOrders(r.eid, rows[0].eid, r.eid);
      assert forall i :: 0 <= i < |rows| - 1 ==> rows[1..][i] == rows[i + 1];
      if |rows| > 1 {
        assert !Before(rows[1], rows[0]);
        StringLessOrders(r.eid, rows[0].eid, rows[1].eid);
      }
      NoneTied(rows[1..], r, key);
    }
  }

  /** The sort is stable: rows with equal keys keep the order they came in. */
  lemma {:induction false} SortRowsIsStable(rows: seq<Row>, key: Row)
    ensures Tied(SortRows(rows), key) == Tied(rows, key)
  {
    if |rows| > 0 {
      var n := |rows| - 1;
      SortRowsOrders(rows[..n]);
      SortRowsIsStable(rows[..n], key);
      InsertIsStable(SortRows(rows[..n]), rows[n], key);
      TiedAppend(rows[..n], rows[n], key);
      assert rows == rows[..n] + [rows[n]];
    }
  }

  /** The rows are walked in order of time and exec id, each once, those with equal keys as they came. */
  lemma {:induction false} SortedStably(rows: seq<Row>)
    ensures var sorted := SortRows(rows);
            && Ordered(sorted) && multiset(sorted) == multiset(rows)
            && forall key :: Tied(sorted, key) == Tied(rows, key)
  {
    SortRowsOrders(rows);
    forall key ensures Tied(SortRows(rows), key) == Tied(rows, key) {
      SortRowsIsStable(rows, key);
    }
  }

  // ---- Reading the rows ----------------------------------------------------------

  function SideOf(side: string): Side {
    if side in {"BOT", "BUY", "B"} then Bought
    else if side in {"SLD", "SELL", "S"} then Sold
    else Unknown
  }

  function SignedQty(r: Row): Option<real> {
    if r.shares.None? || r.shares.value <= 0.0 then None
    else
      match SideOf(r.side)
      case Bought => Some(r.shares.value)
      case Sold => Some(-r.shares.value)
      case Unknown => None
  }

  function FillOf(r: Row): Option<Fill> {
    var sq := SignedQty(r);
    if sq.None? || r.price.None? then None
    else Some(Fill(r.eid, sq.value, r.price.value, r.commission.GetOr(0.0)))
  }

  /** The fills of the rows, or None when one of them is incomplete. */
  function FillsOf(rows: seq<Row>): (fills: Option<seq<Fill>>)
    ensures fills.Some? ==> |fills.value| == |rows| && Traded(fills.value)
    ensures fills.Some? ==> forall i :: 0 <= i < |rows| ==> FillOf(rows[i]) == Some(fills.value[i])
  {
    if |rows| == 0 then Some([])
    else
      var before, last := FillsOf(rows[..|rows| - 1]), FillOf(rows[|rows| - 1]);
      if before.None? || last.None? then None else Some(before.value + [last.value])
  }

  /** The broker's realized P&L by exec id; a later row of the same id replaces an earlier one. */
  function ReportsOf(rows: seq<Row>): Reports {
    if |rows| == 0 then map[]
    else ReportsOf(rows[..|rows| - 1])[rows[|rows| - 1].eid := rows[|rows| - 1].realized]
  }

  function FirstMultiplier(rows: seq<Row>): Option<real> {
    if |rows| == 0 then None
    else if rows[0].multiplier.Some? && rows[0].multiplier.value != 0.0 then rows[0].multiplier
    else FirstMultiplier(rows[1..])
  }

  function MultiplierOf(rows: seq<Row>, position: Position): Option<real> {
    var m := FirstMultiplier(rows);
    if m.Some? then m else position.multiplier
  }

  function NetTraded(fills: seq<Fill>): real {
    if |fills| == 0 then 0.0 else NetTraded(fills[..|fills| - 1]) + fills[|fills| - 1].sq
  }

  /** The seed's cost is too far from the first fill's price to be believed. */
  predicate Implausible(seedCost: real, firstPrice: real) {
    firstPrice != 0.0 && Abs(seedCost - firstPrice) / firstPrice > SEED_SANITY_RATIO
  }

  // ---- The walk ------------------------------------------------------------------

  function Record(byExec: map<string, real>, eid: string, pnl: Option<real>): map<string, real> {
    if pnl.Some? then byExec[eid := pnl.value] else byExec
  }

  function Walk(lots: seq<Holding>, byExec: map<string, real>, fills: seq<Fill>, mult: real): (r: LifoResult)
    requires mult != 0.0
    ensures r.Lifo?
    decreases |fills|
  {
    if |fills| == 0 then Lifo(byExec, lots)
    else
      var a := Apply(lots, fills[0], mult);
      Walk(a.lots, Record(byExec, fills[0].eid, a.realized), fills[1..], mult)
  }

  /** Match the fills from a seed lot whose cost is back-solved. */
  function FromSeed(seedQty: real, fills: seq<Fill>, mult: real, ibAvg: Option<real>, ib: Reports): LifoResult
    requires Traded(fills) && mult != 0.0
  {
    if seedQty == 0.0 then Walk([], map[], fills, mult)
    else
      match Solve(seedQty, fills, mult, ibAvg, ib)
      case Unsolved(reason) => Avg(reason)
      case Cost(c) =>
        if |fills| > 0 && Implausible(c, fills[0].price) then Avg("seed_cost_implausible")
        else Walk([Holding(seedQty, c)], map[], fills, mult)
  }

  /** What `_compute_one` returns for the rows of one contract. */
  function OneContract(unsorted: seq<Row>, position: Position): LifoResult {
    var mult := MultiplierOf(unsorted, position);
    if mult.None? || mult.value <= 0.0 then Avg("unknown_multiplier")
    else
      var rows := SortRows(unsorted);
      match FillsOf(rows)
      case None => Avg("incomplete_fill")
      case Some(fills) =>
        FromSeed(position.quantity.GetOr(0.0) - NetTraded(fills), fills, mult.value, position.avgCost, ReportsOf(rows))
  }

  /** Read the fills and the broker's realized P&L off the sorted rows. */
  method ReadRows(rows: seq<Row>) returns (fills: Option<seq<Fill>>, ib: Reports)
    ensures fills == FillsOf(rows)
    ensures fills.Some? ==> ib == ReportsOf(rows)
  {
    var read: seq<Fill> := [];
    ib := map[];
    for i := 0 to |rows|
      invariant FillsOf(rows[..i]) == Some(read) && ib == ReportsOf(rows[..i])
    {
      assert rows[..i + 1][..i] == rows[..i];
      var fill := FillOf(rows[i]);
      if fill.None? {
        IncompletePrefix(rows, i + 1);
        return None, ib;
      }
      read := read + [fill.value];
      ib := ib[rows[i].eid := rows[i].realized];
    }
    assert rows[..|rows|] == rows;
    fills := Some(read);
  }

  lemma {:induction false} IncompletePrefix(rows: seq<Row>, n: nat)
    requires n <= |rows| && FillsOf(rows[..n]).None?
    ensures FillsOf(rows).None?
    decreases |rows| - n
  {
    if n < |rows| {
      assert rows[..n + 1][..n] == rows[..n];
      IncompletePrefix(rows, n + 1);
    } else {
      assert rows[..n] == rows;
    }
  }

  /** Apply the fills to the book, recording the realized P&L of those that close something. */
  method WalkFills(book: Book, fills: seq<Fill>, mult: real) returns (byExec: map<string, real>)
    requires book.Valid() && mult != 0.0
    modifies book, book.lots
    ensures book.Valid() && Lifo(byExec, book.Contents()) == Walk(old(book.Contents()), map[], fills, mult)
  {
    byExec := map[];
    assert fills[0..] == fills;
    for i := 0 to |fills|
      invariant book.Valid() && fresh(set l | l in book.lots && l !in old(book.lots))
      invariant Walk(book.Contents(), byExec, fills[i..], mult) == Walk(old(book.Contents()), map[], fills, mult)
    {
      assert fills[i..][1..] == fills[i + 1..];
      var pnl := book.RealizeLifo(fills[i], mult);
      if pnl.Some? {
        byExec := byExec[fills[i].eid := pnl.value];
      }
    }
  }

  method MatchFromSeed(seedQty: real, fills: seq<Fill>, mult: real, ibAvg: Option<real>, ib: Reports)
    returns (r: LifoResult)
    requires |fills| > 0 && Traded(fills) && mult != 0.0
    ensures r == FromSeed(seedQty, fills, mult, ibAvg, ib)
  {
    var book := new Book();
    ghost var seed: seq<Holding> := [];
    if seedQty != 0.0 {
      var solution := SolveSeedCost(seedQty, fills, mult, ibAvg, ib);
      if solution.Unsolved? {
        return Avg(solution.reason);
      }
      if Implausible(solution.cost, fills[0].price) {
        return Avg("seed_cost_implausible");
      }
      book.Push(seedQty, solution.cost);
      seed := [Holding(seedQty, solution.cost)];
    }
    assert book.Contents() == seed;
    assert FromSeed(seedQty, fills, mult, ibAvg, ib) == Walk(seed, map[], fills, mult);
    var byExec := WalkFills(book, fills, mult);
    r := Lifo(byExec, Values(book));
  }

  method ComputeOne(unsorted: seq<Row>, position: Position) returns (r: LifoResult)
    requires |unsorted| > 0
    ensures r == OneContract(unsorted, position)
  {
    var mult := MultiplierOf(unsorted, position);
    if mult.None? || mult.value <= 0.0 {
      return Avg("unknown_multiplier");
    }
    var rows := SortRows(unsorted);
    SortRowsOrders(unsorted);
    assert |rows| == |multiset(rows)| == |unsorted|;
    var fills, ib := ReadRows(rows);
    if fills.None? {
      return Avg("incomplete_fill");
    }
    var seedQty := position.quantity.GetOr(0.0) - NetTraded(fills.value);
    r := MatchFromSeed(seedQty, fills.value, mult.value, position.avgCost, ib);
  }

  /** The values of the open lots, as the result reports them. */
  function Values(book: Book): (s: seq<Holding>)
    requires book.Valid()
    reads book, book.lots
    ensures s == book.Contents()
  {
    seq(|book.lots|, i requires 0 <= i < |book.lots| reads book, book.lots
                     => Holding(book.lots[i].qty, book.lots[i].cost))
  }
}
