/**
 What LIFO P&L promises against the broker's numbers: round trips agree, the seed's true cost is
 recovered, and only the split between realized and open P&L differs.
 */
module LifoGuarantees {
  import opened Wrappers
  import opened LotMatching
  import opened LotProperties
  import opened AverageCost
  import opened SeedSolver
  import opened LifoPnl

  // ---- Realized plus open P&L does not depend on the method ------------------------

  /** Per-unit cost of the open lots (`LifoResult.avg_cost`; None when flat). */
  function LifoAvgCost(lots: seq<Holding>): Option<real> {
    if Net(lots) == 0.0 then None else Some(Basis(lots, 1.0) / Net(lots))
  }

  function BrokerAvgCost(p: Average): Option<real> {
    if p.qty == 0.0 then None else Some(p.avg)
  }

  /** Open P&L of a position at a mark price. */
  function OpenPnl(avg: Option<real>, qty: real, mark: real, mult: real): real {
    if avg.None? then 0.0 else Value(qty, mark - avg.value, mult)
  }

  lemma {:induction false} BasisScales(lots: seq<Holding>, mult: real)
    ensures Basis(lots, mult) == Times(Basis(lots, 1.0), mult)
  {
    if |lots| > 0 {
      var top := lots[|lots| - 1];
      BasisScales(lots[..|lots| - 1], mult);
      ScaleAdds(Basis(lots[..|lots| - 1], 1.0), top.qty, top.cost, mult);
    }
  }

  lemma {:induction false} ScaleAdds(b: real, qty: real, cost: real, mult: real)
    ensures Times(b + Value(qty, cost, 1.0), mult) == Times(b, mult) + Value(qty, cost, mult)
  {
  }

  lemma {:induction false} OpenPnlIs(qty: real, cost: real, mark: real, mult: real)
    ensures Value(qty, mark - cost, mult) == Value(qty, mark, mult) - Value(qty, cost, mult)
  {
  }

  lemma {:induction false} QuotientValue(b: real, q: real, mult: real)
    requires q != 0.0
    ensures Value(q, b / q, mult) == Times(b, mult)
  {
    var c := b / q;
    assert q * c == b;
  }

  lemma {:induction false} LifoOpenPnl(lots: seq<Holding>, mark: real, mult: real)
    requires OneSided(lots)
    ensures OpenPnl(LifoAvgCost(lots), Net(lots), mark, mult) == Value(Net(lots), mark, mult) - Basis(lots, mult)
  {
    var q := Net(lots);
    if q == 0.0 {
      assert |lots| == 0 || Sign(lots[0].qty) == Sign(q);
      assert Value(0.0, mark, mult) == 0.0;
    } else {
      OpenPnlIs(q, Basis(lots, 1.0) / q, mark, mult);
      QuotientValue(Basis(lots, 1.0), q, mult);
      BasisScales(lots, mult);
    }
  }

  lemma {:induction false} BrokerOpenPnl(p: Average, mark: real, mult: real)
    ensures OpenPnl(BrokerAvgCost(p), p.qty, mark, mult) == Value(p.qty, mark, mult) - Value(p.qty, p.avg, mult)
  {
    OpenPnlIs(p.qty, p.avg, mark, mult);
    assert p.qty == 0.0 ==> Value(p.qty, mark, mult) == 0.0 && Value(p.qty, p.avg, mult) == 0.0;
  }

  /**
   Started from the same position at the same cost, the two methods agree at every mark price on
   realized plus open P&L; so on a round trip they agree on realized P&L alone.
   */
  lemma {:induction false} OnlyTheSplitDiffers(seedQty: real, c: real, fills: seq<Fill>, mult: real, mark: real)
    requires Traded(fills) && mult != 0.0
    ensures var lots := LotsAfter(SeedLots(seedQty, c), fills, mult);
            var p := AverageAfter(Average(seedQty, c), fills, mult);
            && Net(lots) == p.qty == QtyAfter(seedQty, fills)
            && LifoTotal(SeedLots(seedQty, c), fills, mult) + OpenPnl(LifoAvgCost(lots), Net(lots), mark, mult)
            == AverageTotal(Average(seedQty, c), fills, mult) + OpenPnl(BrokerAvgCost(p), p.qty, mark, mult)
            && (p.qty == 0.0 ==>
                  LifoTotal(SeedLots(seedQty, c), fills, mult) == AverageTotal(Average(seedQty, c), fills, mult))
  {
    var lots := LotsAfter(SeedLots(seedQty, c), fills, mult);
    var p := AverageAfter(Average(seedQty, c), fills, mult);
    SeedLotsBasis(seedQty, c, mult);
    LifoTotalIs(SeedLots(seedQty, c), fills, mult);
    AverageTotalIs(Average(seedQty, c), fills, mult);
    LifoOpenPnl(lots, mark, mult);
    BrokerOpenPnl(p, mark, mult);
  }

  /** The lots a contract starts from: one lot for an old position, none when there was none. */
  function SeedLots(seedQty: real, c: real): seq<Holding> {
    if seedQty == 0.0 then [] else [Holding(seedQty, c)]
  }

  lemma {:induction false} SeedLotsBasis(seedQty: real, c: real, mult: real)
    ensures OneSided(SeedLots(seedQty, c)) && Net(SeedLots(seedQty, c)) == seedQty
    ensures Basis(SeedLots(seedQty, c), mult) == Value(seedQty, c, mult)
  {
    if seedQty == 0.0 {
      assert Value(0.0, c, mult) == 0.0;
    } else {
      assert SeedLots(seedQty, c) == [] + [Holding(seedQty, c)];
      SumsOfPush([], Holding(seedQty, c), mult);
    }
  }

  // ---- The seed was closed out ------------------------------------------------------

  /** Through the fill that closes the seed, both methods realize the same. */
  lemma {:induction false} ThroughAgrees(seedQty: real, c: real, fills: seq<Fill>, mult: real)
    requires Traded(fills) && mult != 0.0 && EverCrosses(seedQty, fills)
    ensures LifoThrough(SeedLots(seedQty, c), fills, mult) == AverageThrough(Average(seedQty, c), fills, mult)
  {
    SeedLotsBasis(seedQty, c, mult);
    LifoThroughIs(SeedLots(seedQty, c), fills, mult);
    AverageThroughIs(Average(seedQty, c), fills, mult);
  }

  /**
   When the visible fills close the seed out and the solver answers, LIFO P&L through the closing
   fill is what the broker reported on the reducing fills up to it.
   */
  lemma {:induction false} ClosedSeedMatchesBroker(seedQty: real, fills: seq<Fill>, mult: real,
      ibAvg: Option<real>, ib: Reports)
    requires Traded(fills) && mult != 0.0 && seedQty != 0.0 && EverCrosses(seedQty, fills)
    ensures var r := Solve(seedQty, fills, mult, ibAvg, ib);
            && (r.Cost? <==> Target(seedQty, fills, ib).Some?)
            && (r.Cost? ==>
                  Some(LifoThrough(SeedLots(seedQty, r.cost), fills, mult)) == Target(seedQty, fills, ib))
  {
    var r := Solve(seedQty, fills, mult, ibAvg, ib);
    var c := if r.Cost? then r.cost else 0.0;
    SolveExactly(seedQty, fills, mult, ibAvg, ib, c);
    ThroughAgrees(seedQty, c, fills, mult);
  }

  // ---- The seed is still held ---------------------------------------------------------

  /**
   When the seed survives and the solver answers, realized plus open P&L at the LIFO cost equals
   average-cost P&L plus open P&L at the broker's own average, at every mark price.
   */
  lemma {:induction false} HeldSeedMatchesBroker(seedQty: real, fills: seq<Fill>, mult: real,
                                                 ibAvg: Option<real>, ib: Reports, mark: real)
    requires Traded(fills) && mult != 0.0 && seedQty != 0.0 && !EverCrosses(seedQty, fills)
    ensures var r, q := Solve(seedQty, fills, mult, ibAvg, ib), QtyAfter(seedQty, fills);
            && (r.Cost? <==> ibAvg.Some?)
            && (r.Cost? ==>
                  var lots := LotsAfter(SeedLots(seedQty, r.cost), fills, mult);
                  && Net(lots) == q != 0.0
                  && LifoTotal(SeedLots(seedQty, r.cost), fills, mult) + OpenPnl(LifoAvgCost(lots), q, mark, mult)
                  == AverageTotal(Average(seedQty, r.cost), fills, mult) + OpenPnl(ibAvg, q, mark, mult))
  {
    var r := Solve(seedQty, fills, mult, ibAvg, ib);
    var c := if r.Cost? then r.cost else 0.0;
    SolveExactly(seedQty, fills, mult, ibAvg, ib, c);
    StaysOnSide(seedQty, fills);
    OnlyTheSplitDiffers(seedQty, c, fills, mult, mark);
  }

  // ---- The true cost is recovered -------------------------------------------------------

  /** The broker reported, on every fill that reduced the position, what the walk from `p` realizes. */
  predicate ReportsWalk(p: Average, fills: seq<Fill>, mult: real, ib: Reports)
    requires Traded(fills) && mult != 0.0
    decreases |fills|
  {
    |fills| == 0 ||
    var n := AverageStep(p, fills[0], mult);
    (n.realized.Some? ==> Reported(ib, fills[0].eid) == n.realized) && ReportsWalk(n.pos, fills[1..], mult, ib)
  }

  lemma {:induction false} TargetOfWalk(p: Average, fills: seq<Fill>, mult: real, ib: Reports)
    requires Traded(fills) && mult != 0.0 && ReportsWalk(p, fills, mult, ib)
    ensures Target(p.qty, fills, ib) == Some(AverageThrough(p, fills, mult))
    decreases |fills|
  {
    if |fills| > 0 {
      if Opens(p.qty, fills[0]) {
        SameSideAdds(p.qty, fills[0].sq);
      }
      TargetOfWalk(AverageStep(p, fills[0], mult).pos, fills[1..], mult, ib);
    }
  }

  /** If the broker's numbers are an average-cost walk from cost `c`, the solver returns exactly `c`. */
  lemma {:induction false} SolverInvertsWalk(seedQty: real, c: real, fills: seq<Fill>, mult: real,
                                             ibAvg: Option<real>, ib: Reports)
    requires Traded(fills) && mult != 0.0 && seedQty != 0.0
    requires EverCrosses(seedQty, fills) ==> ReportsWalk(Average(seedQty, c), fills, mult, ib)
    requires !EverCrosses(seedQty, fills) ==> ibAvg == Some(AverageAfter(Average(seedQty, c), fills, mult).avg)
    ensures Solve(seedQty, fills, mult, ibAvg, ib) == Cost(c)
  {
    SolveExactly(seedQty, fills, mult, ibAvg, ib, c);
    if EverCrosses(seedQty, fills) {
      TargetOfWalk(Average(seedQty, c), fills, mult, ib);
    }
  }

  // ---- What is recorded per execution ---------------------------------------------------

  ghost predicate DistinctIds(fills: seq<Fill>) {
    forall i, j :: 0 <= i < j < |fills| ==> fills[i].eid != fills[j].eid
  }

  function Lookup(m: map<string, real>, eid: string): real {
    if eid in m then m[eid] else 0.0
  }

  /** Sum of what is recorded for the fills. */
  function RecordedTotal(m: map<string, real>, fills: seq<Fill>): real {
    if |fills| == 0 then 0.0 else Lookup(m, fills[0].eid) + RecordedTotal(m, fills[1..])
  }

  lemma {:induction false} WalkKeeps(lots: seq<Holding>, byExec: map<string, real>, fills: seq<Fill>,
                                     mult: real, eid: string)
    requires mult != 0.0 && forall i :: 0 <= i < |fills| ==> fills[i].eid != eid
    ensures var m := Walk(lots, byExec, fills, mult).realizedByExec;
            (eid in m <==> eid in byExec) && (eid in m ==> m[eid] == byExec[eid])
    decreases |fills|
  {
    if |fills| > 0 {
      var a := Apply(lots, fills[0], mult);
      WalkKeeps(a.lots, Record(byExec, fills[0].eid, a.realized), fills[1..], mult, eid);
    }
  }

  lemma {:induction false} WalkHoldsPosition(lots: seq<Holding>, byExec: map<string, real>, fills: seq<Fill>,
                                             mult: real)
    requires OneSided(lots) && Traded(fills) && mult != 0.0
    ensures var r := Walk(lots, byExec, fills, mult);
            && r.Lifo? && r.lots == LotsAfter(lots, fills, mult)
            && OneSided(r.lots) && Net(r.lots) == QtyAfter(Net(lots), fills)
    decreases |fills|
  {
    if |fills| > 0 {
      var a := Apply(lots, fills[0], mult);
      ApplyShape(lots, fills[0], mult);
      AccountingIdentity(lots, fills[0], mult);
      WalkHoldsPosition(a.lots, Record(byExec, fills[0].eid, a.realized), fills[1..], mult);
    }
  }

  lemma {:induction false} WalkRecordsTotal(lots: seq<Holding>, byExec: map<string, real>, fills: seq<Fill>, mult: real)
    requires OneSided(lots) && Traded(fills) && mult != 0.0 && DistinctIds(fills)
    requires forall i :: 0 <= i < |fills| ==> fills[i].eid !in byExec
    ensures RecordedTotal(Walk(lots, byExec, fills, mult).realizedByExec, fills) == LifoTotal(lots, fills, mult)
    decreases |fills|
  {
    if |fills| > 0 {
      var a := Apply(lots, fills[0], mult);
      var next := Record(byExec, fills[0].eid, a.realized);
      ApplyShape(lots, fills[0], mult);
      WalkRecordsTotal(a.lots, next, fills[1..], mult);
      WalkKeeps(a.lots, next, fills[1..], mult, fills[0].eid);
    }
  }

  lemma {:induction false} HeadRecorded(lots: seq<Holding>, byExec: map<string, real>, fills: seq<Fill>, mult: real)
    requires OneSided(lots) && Traded(fills) && mult != 0.0 && DistinctIds(fills)
    requires |fills| > 0 && fills[0].eid !in byExec
    ensures fills[0].eid in Walk(lots, byExec, fills, mult).realizedByExec <==> !Opens(Net(lots), fills[0])
  {
    var a := Apply(lots, fills[0], mult);
    ApplyShape(lots, fills[0], mult);
    WalkKeeps(a.lots, Record(byExec, fills[0].eid, a.realized), fills[1..], mult, fills[0].eid);
  }

  lemma {:induction false} QtyAfterTail(qty: real, fills: seq<Fill>, i: nat)
    requires 0 < i <= |fills|
    ensures QtyAfter(qty, fills[..i]) == QtyAfter(qty + fills[0].sq, fills[1..][..i - 1])
  {
    assert fills[..i][1..] == fills[1..][..i - 1];
  }

  lemma {:induction false} ApplyKeepsSide(lots: seq<Holding>, f: Fill, mult: real)
    requires OneSided(lots) && f.sq != 0.0 && mult != 0.0
    ensures OneSided(Apply(lots, f, mult).lots) && Net(Apply(lots, f, mult).lots) == Net(lots) + f.sq
  {
    ApplyShape(lots, f, mult);
    AccountingIdentity(lots, f, mult);
  }

  lemma {:induction false} NotYetRecorded(byExec: map<string, real>, fills: seq<Fill>, pnl: Option<real>)
    requires |fills| > 0 && DistinctIds(fills) && forall j :: 0 <= j < |fills| ==> fills[j].eid !in byExec
    ensures DistinctIds(fills[1..])
    ensures forall j :: 0 <= j < |fills| - 1 ==> fills[1..][j].eid !in Record(byExec, fills[0].eid, pnl)
  {
  }

  lemma {:induction false} WalkRecordsReducing(lots: seq<Holding>, byExec: map<string, real>, fills: seq<Fill>,
                                               mult: real, i: nat, qty: real)
    requires OneSided(lots) && Traded(fills) && mult != 0.0 && DistinctIds(fills) && qty == Net(lots)
    requires forall j :: 0 <= j < |fills| ==> fills[j].eid !in byExec
    requires i < |fills|
    ensures fills[i].eid in Walk(lots, byExec, fills, mult).realizedByExec
       <==> !Opens(QtyAfter(qty, fills[..i]), fills[i])
    decreases |fills|
  {
    if i == 0 {
      HeadRecorded(lots, byExec, fills, mult);
    } else {
      var a := Apply(lots, fills[0], mult);
      ApplyKeepsSide(lots, fills[0], mult);
      NotYetRecorded(byExec, fills, a.realized);
      QtyAfterTail(qty, fills, i);
      WalkRecordsReducing(a.lots, Record(byExec, fills[0].eid, a.realized), fills[1..], mult, i - 1, qty + fills[0].sq);
    }
  }

  /**
   With distinct exec ids, the result records exactly the fills that reduced the position, what is
   recorded adds up to the LIFO total, and the open lots hold the position.
   */
  lemma {:induction false} RecordsReducingFills(lots: seq<Holding>, byExec: map<string, real>, fills: seq<Fill>,
                                                mult: real)
    requires OneSided(lots) && Traded(fills) && mult != 0.0 && DistinctIds(fills)
    requires forall i :: 0 <= i < |fills| ==> fills[i].eid !in byExec
    ensures var r := Walk(lots, byExec, fills, mult);
            && r.Lifo? && r.lots == LotsAfter(lots, fills, mult)
            && OneSided(r.lots) && Net(r.lots) == QtyAfter(Net(lots), fills)
            && RecordedTotal(r.realizedByExec, fills) == LifoTotal(lots, fills, mult)
            && forall i :: 0 <= i < |fills| ==>
                 (fills[i].eid in r.realizedByExec <==> !Opens(QtyAfter(Net(lots), fills[..i]), fills[i]))
  {
    WalkHoldsPosition(lots, byExec, fills, mult);
    WalkRecordsTotal(lots, byExec, fills, mult);
    forall i | 0 <= i < |fills|
      ensures fills[i].eid in Walk(lots, byExec, fills, mult).realizedByExec
         <==> !Opens(QtyAfter(Net(lots), fills[..i]), fills[i])
    {
      WalkRecordsReducing(lots, byExec, fills, mult, i, Net(lots));
    }
  }

  /** Sum of what is recorded for the fills up to and including the one that crosses zero. */
  function RecordedThrough(m: map<string, real>, qty: real, fills: seq<Fill>): real
    decreases |fills|
  {
    if |fills| == 0 then 0.0
    else
      Lookup(m, fills[0].eid)
      + if Crosses(qty, fills[0]) then 0.0 else RecordedThrough(m, qty + fills[0].sq, fills[1..])
  }

  lemma {:induction false} RecordsThrough(lots: seq<Holding>, byExec: map<string, real>, fills: seq<Fill>, mult: real)
    requires OneSided(lots) && Traded(fills) && mult != 0.0 && DistinctIds(fills)
    requires forall i :: 0 <= i < |fills| ==> fills[i].eid !in byExec
    ensures RecordedThrough(Walk(lots, byExec, fills, mult).realizedByExec, Net(lots), fills)
         == LifoThrough(lots, fills, mult)
    decreases |fills|
  {
    if |fills| > 0 {
      var a := Apply(lots, fills[0], mult);
      var next := Record(byExec, fills[0].eid, a.realized);
      LifoIdentity(lots, fills[0], mult);
      RecordsThrough(a.lots, next, fills[1..], mult);
      WalkKeeps(a.lots, next, fills[1..], mult, fills[0].eid);
    }
  }

  // ---- The result for one contract --------------------------------------------------------

  /**
   A LIFO result for fills that close the seed out: what it records through the closing fill adds
   up to the P&L the broker reported on the reducing fills up to it.
   */
  lemma {:induction false} ResultOfClosedSeed(seedQty: real, fills: seq<Fill>, mult: real, ibAvg: Option<real>,
                                              ib: Reports)
    requires Traded(fills) && mult != 0.0 && DistinctIds(fills)
    requires seedQty != 0.0 && EverCrosses(seedQty, fills)
    requires FromSeed(seedQty, fills, mult, ibAvg, ib).Lifo?
    ensures var r := FromSeed(seedQty, fills, mult, ibAvg, ib);
            && Some(RecordedThrough(r.realizedByExec, seedQty, fills)) == Target(seedQty, fills, ib)
            && Net(r.lots) == QtyAfter(seedQty, fills)
  {
    var c := Solve(seedQty, fills, mult, ibAvg, ib).cost;
    ClosedSeedMatchesBroker(seedQty, fills, mult, ibAvg, ib);
    SeedLotsBasis(seedQty, c, mult);
    RecordsThrough(SeedLots(seedQty, c), map[], fills, mult);
    RecordsReducingFills(SeedLots(seedQty, c), map[], fills, mult);
  }

  /**
   A LIFO result for fills that leave the seed held: at every mark price, what it records plus open
   P&L at its cost is average-cost P&L plus open P&L at the broker's average.
   */
  lemma {:induction false} ResultOfHeldSeed(seedQty: real, fills: seq<Fill>, mult: real, ibAvg: Option<real>,
                                            ib: Reports,
                                            mark: real)
    requires Traded(fills) && mult != 0.0 && DistinctIds(fills)
    requires seedQty != 0.0 && !EverCrosses(seedQty, fills)
    requires FromSeed(seedQty, fills, mult, ibAvg, ib).Lifo?
    ensures var r, q := FromSeed(seedQty, fills, mult, ibAvg, ib), QtyAfter(seedQty, fills);
            var c := Solve(seedQty, fills, mult, ibAvg, ib).cost;
            && Net(r.lots) == q != 0.0
            && RecordedTotal(r.realizedByExec, fills) + OpenPnl(LifoAvgCost(r.lots), q, mark, mult)
            == AverageTotal(Average(seedQty, c), fills, mult) + OpenPnl(ibAvg, q, mark, mult)
  {
    var c := Solve(seedQty, fills, mult, ibAvg, ib).cost;
    HeldSeedMatchesBroker(seedQty, fills, mult, ibAvg, ib, mark);
    SeedLotsBasis(seedQty, c, mult);
    RecordsReducingFills(SeedLots(seedQty, c), map[], fills, mult);
  }
}
