/**
 Back-solving the cost of the position that existed before the visible fills
 (`_solve_seed_cost`). The broker's numbers are affine in that cost; the solver inverts them.
 */
module SeedSolver {
  import opened Wrappers
  import opened Reals
  import opened LotMatching
  import opened LotProperties
  import opened AverageCost

  /** The broker's realized P&L per exec id, where it reported one. */
  type Reports = map<string, Option<real>>

  function Reported(ib: Reports, eid: string): Option<real> {
    if eid in ib then ib[eid] else None
  }

  /** The solver's answer: a per-unit seed cost, or why there is none. */
  datatype Solution = Cost(cost: real) | Unsolved(reason: string)

  // ---- Whole walks ----------------------------------------------------------

  function LotsAfter(lots: seq<Holding>, fills: seq<Fill>, mult: real): seq<Holding>
    requires mult != 0.0
    decreases |fills|
  {
    if |fills| == 0 then lots else LotsAfter(Apply(lots, fills[0], mult).lots, fills[1..], mult)
  }

  function AverageAfter(p: Average, fills: seq<Fill>, mult: real): Average
    requires Traded(fills) && mult != 0.0
    decreases |fills|
  {
    if |fills| == 0 then p else AverageAfter(AverageStep(p, fills[0], mult).pos, fills[1..], mult)
  }

  /** P&L of all fills under lot matching. */
  function LifoTotal(lots: seq<Holding>, fills: seq<Fill>, mult: real): real
    requires mult != 0.0
    decreases |fills|
  {
    if |fills| == 0 then 0.0
    else
      var a := Apply(lots, fills[0], mult);
      a.realized.GetOr(0.0) + LifoTotal(a.lots, fills[1..], mult)
  }

  /** P&L of all fills at average cost. */
  function AverageTotal(p: Average, fills: seq<Fill>, mult: real): real
    requires Traded(fills) && mult != 0.0
    decreases |fills|
  {
    if |fills| == 0 then 0.0
    else
      var n := AverageStep(p, fills[0], mult);
      n.realized.GetOr(0.0) + AverageTotal(n.pos, fills[1..], mult)
  }

  /** P&L under lot matching up to and including the fill that takes the position through zero. */
  function LifoThrough(lots: seq<Holding>, fills: seq<Fill>, mult: real): real
    requires mult != 0.0
    decreases |fills|
  {
    if |fills| == 0 then 0.0
    else
      var a := Apply(lots, fills[0], mult);
      a.realized.GetOr(0.0)
      + if Crosses(Net(lots), fills[0]) then 0.0 else LifoThrough(a.lots, fills[1..], mult)
  }

  /** P&L at average cost up to and including the fill that takes the position through zero. */
  function AverageThrough(p: Average, fills: seq<Fill>, mult: real): real
    requires Traded(fills) && mult != 0.0
    decreases |fills|
  {
    if |fills| == 0 then 0.0
    else
      var n := AverageStep(p, fills[0], mult);
      n.realized.GetOr(0.0)
      + if Crosses(p.qty, fills[0]) then 0.0 else AverageThrough(n.pos, fills[1..], mult)
  }

  /** Some fill takes the position to flat or through zero. */
  predicate EverCrosses(qty: real, fills: seq<Fill>)
    decreases |fills|
  {
    |fills| > 0 && (Crosses(qty, fills[0]) || EverCrosses(qty + fills[0].sq, fills[1..]))
  }

  /** The signed position after the fills. */
  function QtyAfter(qty: real, fills: seq<Fill>): real
    decreases |fills|
  {
    if |fills| == 0 then qty else QtyAfter(qty + fills[0].sq, fills[1..])
  }

  /** Cash up to and including the crossing fill, plus the basis that fill opens. */
  function CashThrough(qty: real, fills: seq<Fill>, mult: real): real
    requires Traded(fills) && mult != 0.0
    decreases |fills|
  {
    if |fills| == 0 then 0.0
    else
      Cash(fills[0], mult)
      + if Crosses(qty, fills[0]) then Worth(qty + fills[0].sq, fills[0], mult)
        else CashThrough(qty + fills[0].sq, fills[1..], mult)
  }

  function Times(x: real, y: real): real {
    x * y
  }

  /** How much of a change of the average cost a fill leaves. */
  function Slope(qty: real, f: Fill): real {
    if Opens(qty, f) && qty + f.sq != 0.0 then Abs(qty) / Abs(qty + f.sq) else 1.0
  }

  /** How much of a change of the seed's cost is left in the average cost after the fills. */
  function Weight(qty: real, fills: seq<Fill>): real
    decreases |fills|
  {
    if |fills| == 0 then 1.0
    else
      Times(Slope(qty, fills[0]), Weight(qty + fills[0].sq, fills[1..]))
  }

  function CashTotal(fills: seq<Fill>, mult: real): real {
    if |fills| == 0 then 0.0 else Cash(fills[0], mult) + CashTotal(fills[1..], mult)
  }

  // ---- The solver ------------------------------------------------------------

  /** The broker's realized P&L on the fills that closed the seed (None when one is missing). */
  function Target(qty: real, fills: seq<Fill>, ib: Reports): Option<real>
    decreases |fills|
  {
    if |fills| == 0 then Some(0.0)
    else if Opens(qty, fills[0]) then Target(qty + fills[0].sq, fills[1..], ib)
    else
      match Reported(ib, fills[0].eid)
      case None => None
      case Some(pnl) =>
        if Crosses(qty, fills[0]) then Some(pnl)
        else
          match Target(qty + fills[0].sq, fills[1..], ib)
          case None => None
          case Some(rest) => Some(pnl + rest)
  }

  /** Add what was summed before to the target of the remaining fills. */
  function Plus(sum: real, rest: Option<real>): Option<real> {
    match rest
    case None => None
    case Some(x) => Some(sum + x)
  }

  function FinalAvg(s: Simulation): Option<real> {
    if s.pos.qty != 0.0 then Some(s.pos.avg) else None
  }

  /** The solver's decision, from the walks at cost 0 and cost 1 and the broker's numbers. */
  function Decide(avg0: Option<real>, r0: real, avg1: Option<real>, r1: real, gone: bool,
                  ibAvg: Option<real>, target: Option<real>): Solution
  {
    if !gone then
      if ibAvg.None? || avg0.None? || avg1.None? || avg1 == avg0 then Unsolved("no_ib_avg_cost")
      else Cost((ibAvg.value - avg0.value) / (avg1.value - avg0.value))
    else if target.None? then Unsolved("ib_realized_missing")
    else if r1 == r0 then Unsolved("degenerate_seed")
    else Cost((target.value - r0) / (r1 - r0))
  }

  function Solve(seedQty: real, fills: seq<Fill>, mult: real, ibAvg: Option<real>, ib: Reports): Solution
    requires Traded(fills) && mult != 0.0
  {
    var s0 := Simulate(Simulation(Average(seedQty, 0.0), 0.0, false), fills, mult);
    var s1 := Simulate(Simulation(Average(seedQty, 1.0), 0.0, false), fills, mult);
    Decide(FinalAvg(s0), s0.realized, FinalAvg(s1), s1.realized, s0.gone, ibAvg, Target(seedQty, fills, ib))
  }

  /** Sum the broker's realized P&L over the fills that close the seed. */
  method SumReported(seedQty: real, fills: seq<Fill>, ib: Reports) returns (target: Option<real>)
    ensures target == Target(seedQty, fills, ib)
  {
    var sum, qty, i := 0.0, seedQty, 0;
    while i < |fills|
      invariant 0 <= i <= |fills|
      invariant Plus(sum, Target(qty, fills[i..], ib)) == Plus(0.0, Target(seedQty, fills, ib))
    {
      var f := fills[i];
      assert fills[i..][1..] == fills[i + 1..];
      if qty != 0.0 && Sign(f.sq) != Sign(qty) {
        var pnl := Reported(ib, f.eid);
        if pnl.None? {
          return None;
        }
        sum := sum + pnl.value;
        if Sign(qty + f.sq) != Sign(qty) {
          return Some(sum);
        }
      }
      qty := qty + f.sq;
      i := i + 1;
    }
    return Some(sum);
  }

  /** Back-solve the seed lot's average cost from the broker's own numbers. */
  method SolveSeedCost(seedQty: real, fills: seq<Fill>, mult: real, ibAvg: Option<real>, ib: Reports)
    returns (r: Solution)
    requires Traded(fills) && mult != 0.0
    ensures r == Solve(seedQty, fills, mult, ibAvg, ib)
  {
    var avg0, r0, gone := SimulateAvg(seedQty, 0.0, fills, mult);
    var avg1, r1, _ := SimulateAvg(seedQty, 1.0, fills, mult);
    if !gone {
      if ibAvg.None? || avg0.None? || avg1.None? || avg1 == avg0 {
        return Unsolved("no_ib_avg_cost");
      }
      return Cost((ibAvg.value - avg0.value) / (avg1.value - avg0.value));
    }
    var target := SumReported(seedQty, fills, ib);
    if target.None? {
      return Unsolved("ib_realized_missing");
    }
    if r1 == r0 {
      return Unsolved("degenerate_seed");
    }
    return Cost((target.value - r0) / (r1 - r0));
  }

  // ---- One fill, under both methods -------------------------------------------

  /** Cash plus the change of the basis, at average cost. */
  lemma {:induction false} AverageIdentity(p: Average, f: Fill, mult: real)
    requires f.sq != 0.0 && mult != 0.0
    ensures var n := AverageStep(p, f, mult);
            && n.realized.GetOr(0.0) == Cash(f, mult) + Value(n.pos.qty, n.pos.avg, mult) - Value(p.qty, p.avg, mult)
            && (Crosses(p.qty, f) ==> Value(n.pos.qty, n.pos.avg, mult) == Worth(p.qty + f.sq, f, mult))
  {
    if Opens(p.qty, f) {
      AddingIdentity(p, f, mult);
      SameSideAdds(p.qty, f.sq);
    } else if Crosses(p.qty, f) {
      CrossingIdentity(p, f, mult);
      RebasedBasis(p, f, mult);
    } else {
      ReducingIdentity(p, f, mult);
    }
  }

  lemma {:induction false} SameSideAdds(q: real, sq: real)
    requires q == 0.0 || Sign(sq) == Sign(q)
    ensures q != 0.0 ==> Sign(q + sq) == Sign(q)
  {
  }

  lemma {:induction false} RebasedBasis(p: Average, f: Fill, mult: real)
    requires f.sq != 0.0 && mult != 0.0 && Crosses(p.qty, f)
    ensures Value(p.qty + f.sq, Rebase(p, f, mult), mult) == Worth(p.qty + f.sq, f, mult)
  {
    var qty := p.qty + f.sq;
    if qty == 0.0 {
      DivisionUnique(f.comm * 0.0, Abs(f.sq), 0.0);
    } else {
      OpenBasis(f.price, Share(f.comm, Abs(qty), Abs(f.sq)), qty, mult);
    }
  }

  lemma {:induction false} LifoIdentity(lots: seq<Holding>, f: Fill, mult: real)
    requires OneSided(lots) && f.sq != 0.0 && mult != 0.0
    ensures var a := Apply(lots, f, mult);
            && OneSided(a.lots) && Net(a.lots) == Net(lots) + f.sq
            && a.realized.GetOr(0.0) == Cash(f, mult) + Basis(a.lots, mult) - Basis(lots, mult)
            && (Crosses(Net(lots), f) ==> Basis(a.lots, mult) == Worth(Net(lots) + f.sq, f, mult))
  {
    AccountingIdentity(lots, f, mult);
    ApplyShape(lots, f, mult);
    OpenRestBasis([], Net(lots) + f.sq, f, mult);
  }

  // ---- Whole walks, under both methods ------------------------------------------

  lemma {:induction false} LifoTotalIs(lots: seq<Holding>, fills: seq<Fill>, mult: real)
    requires OneSided(lots) && Traded(fills) && mult != 0.0
    ensures var after := LotsAfter(lots, fills, mult);
            && OneSided(after) && Net(after) == QtyAfter(Net(lots), fills)
            && LifoTotal(lots, fills, mult) == CashTotal(fills, mult) + Basis(after, mult) - Basis(lots, mult)
    decreases |fills|
  {
    if |fills| > 0 {
      LifoIdentity(lots, fills[0], mult);
      LifoTotalIs(Apply(lots, fills[0], mult).lots, fills[1..], mult);
    }
  }

  lemma {:induction false} AverageTotalIs(p: Average, fills: seq<Fill>, mult: real)
    requires Traded(fills) && mult != 0.0
    ensures var after := AverageAfter(p, fills, mult);
            && after.qty == QtyAfter(p.qty, fills)
            && AverageTotal(p, fills, mult)
               == CashTotal(fills, mult) + Value(after.qty, after.avg, mult) - Value(p.qty, p.avg, mult)
    decreases |fills|
  {
    if |fills| > 0 {
      AverageIdentity(p, fills[0], mult);
      AverageTotalIs(AverageStep(p, fills[0], mult).pos, fills[1..], mult);
    }
  }

  lemma {:induction false} LifoThroughIs(lots: seq<Holding>, fills: seq<Fill>, mult: real)
    requires OneSided(lots) && Traded(fills) && mult != 0.0 && EverCrosses(Net(lots), fills)
    ensures LifoThrough(lots, fills, mult) + Basis(lots, mult) == CashThrough(Net(lots), fills, mult)
    decreases |fills|
  {
    LifoIdentity(lots, fills[0], mult);
    if !Crosses(Net(lots), fills[0]) {
      LifoThroughIs(Apply(lots, fills[0], mult).lots, fills[1..], mult);
    }
  }

  lemma {:induction false} AverageThroughIs(p: Average, fills: seq<Fill>, mult: real)
    requires Traded(fills) && mult != 0.0 && EverCrosses(p.qty, fills)
    ensures AverageThrough(p, fills, mult) + Value(p.qty, p.avg, mult) == CashThrough(p.qty, fills, mult)
    decreases |fills|
  {
    AverageIdentity(p, fills[0], mult);
    if !Crosses(p.qty, fills[0]) {
      AverageThroughIs(AverageStep(p, fills[0], mult).pos, fills[1..], mult);
    }
  }

  lemma {:induction false} SimulateGone(s: Simulation, fills: seq<Fill>, mult: real)
    requires Traded(fills) && mult != 0.0 && s.gone
    ensures var r := Simulate(s, fills, mult);
            r.gone && r.realized == s.realized && r.pos == AverageAfter(s.pos, fills, mult)
    decreases |fills|
  {
    if |fills| > 0 {
      SimulateGone(SimulationStep(s, fills[0], mult), fills[1..], mult);
    }
  }

  /** The walk's three results: final position, P&L through the crossing fill, and whether one crossed. */
  lemma {:induction false} SimulateIs(s: Simulation, fills: seq<Fill>, mult: real)
    requires Traded(fills) && mult != 0.0 && !s.gone
    ensures var r := Simulate(s, fills, mult);
            && r.pos == AverageAfter(s.pos, fills, mult)
            && r.gone == EverCrosses(s.pos.qty, fills)
            && r.realized == s.realized + AverageThrough(s.pos, fills, mult)
    decreases |fills|
  {
    if |fills| > 0 {
      var n := SimulationStep(s, fills[0], mult);
      if Crosses(s.pos.qty, fills[0]) {
        SimulateGone(n, fills[1..], mult);
      } else {
        SimulateIs(n, fills[1..], mult);
      }
    }
  }

  // ---- The broker's numbers are affine in the seed's cost -------------------------

  lemma {:induction false} StaysOnSide(qty: real, fills: seq<Fill>)
    requires qty != 0.0 && !EverCrosses(qty, fills)
    ensures Sign(QtyAfter(qty, fills)) == Sign(qty)
    decreases |fills|
  {
    if |fills| > 0 {
      StaysOnSide(qty + fills[0].sq, fills[1..]);
    }
  }

  /** `y` less `z` is `slope` times `x`. */
  predicate Scaled(y: real, z: real, slope: real, x: real) {
    y - z == Times(slope, x)
  }

  lemma {:induction false} SlopeIs(qty: real, x: real, y: real, f: Fill, mult: real)
    requires f.sq != 0.0 && mult != 0.0 && qty != 0.0 && !Crosses(qty, f)
    ensures Scaled(AverageStep(Average(qty, x), f, mult).pos.avg, AverageStep(Average(qty, y), f, mult).pos.avg,
                   Slope(qty, f), x - y)
    ensures 0.0 < Slope(qty, f) <= 1.0
  {
    if Opens(qty, f) {
      var cost := OpenCost(f.price, f.comm, f.sq, mult, Sign(f.sq));
      SameSideAdds(qty, f.sq);
      assert Abs(qty + f.sq) == Abs(qty) + Abs(f.sq);
      MeanDifference(Abs(qty), x, y, Abs(f.sq), cost, Abs(qty + f.sq));
    }
  }

  lemma {:induction false} MeanDifference(a: real, x: real, y: real, b: real, z: real, total: real)
    requires 0.0 < a <= total
    ensures Scaled(Mean(a, x, b, z, total), Mean(a, y, b, z, total), a / total, x - y)
    ensures 0.0 < a / total <= 1.0
  {
    var u, v, w := Mean(a, x, b, z, total), Mean(a, y, b, z, total), a / total;
    assert u * total == a * x + b * z && v * total == a * y + b * z && w * total == a;
    assert w * (x - y) * total == a * (x - y);
    SameProduct(u - v, w * (x - y), total);
    RatioBounds(a, total);
  }

  lemma {:induction false} RatioBounds(a: real, total: real)
    requires 0.0 < a <= total
    ensures 0.0 < a / total <= 1.0
  {
  }

  lemma {:induction false} SameProduct(x: real, y: real, t: real)
    requires t != 0.0 && x * t == y * t
    ensures x == y
  {
  }

  /** Until the seed is gone, the average cost is affine in its cost, with a slope in (0, 1]. */
  lemma {:induction false} AverageIsAffine(qty: real, x: real, y: real, fills: seq<Fill>, mult: real)
    requires Traded(fills) && mult != 0.0 && qty != 0.0 && !EverCrosses(qty, fills)
    ensures 0.0 < Weight(qty, fills) <= 1.0
    ensures Scaled(AverageAfter(Average(qty, x), fills, mult).avg, AverageAfter(Average(qty, y), fills, mult).avg,
                   Weight(qty, fills), x - y)
    decreases |fills|
  {
    if |fills| > 0 {
      var next := qty + fills[0].sq;
      var u := AverageStep(Average(qty, x), fills[0], mult).pos.avg;
      var v := AverageStep(Average(qty, y), fills[0], mult).pos.avg;
      SlopeIs(qty, x, y, fills[0], mult);
      AverageIsAffine(next, u, v, fills[1..], mult);
      ComposeSlopes(Weight(next, fills[1..]), Slope(qty, fills[0]), x - y, u, v,
                    AverageAfter(Average(next, u), fills[1..], mult).avg,
                    AverageAfter(Average(next, v), fills[1..], mult).avg);
    }
  }

  lemma {:induction false} ComposeSlopes(w: real, v: real, x: real, y: real, z: real, a: real, b: real)
    requires 0.0 < w <= 1.0 && 0.0 < v <= 1.0 && Scaled(y, z, v, x) && Scaled(a, b, w, y - z)
    ensures 0.0 < Times(v, w) <= 1.0 && Scaled(a, b, Times(v, w), x)
  {
    assert v * w <= w;
  }

  /** Once the seed is gone, the P&L through its closing fill is affine in its cost. */
  lemma {:induction false} RealizedIsAffine(qty: real, x: real, y: real, fills: seq<Fill>, mult: real)
    requires Traded(fills) && mult != 0.0 && EverCrosses(qty, fills)
    ensures Scaled(AverageThrough(Average(qty, x), fills, mult), AverageThrough(Average(qty, y), fills, mult),
                   -(qty * mult), x - y)
  {
    AverageThroughIs(Average(qty, x), fills, mult);
    AverageThroughIs(Average(qty, y), fills, mult);
    SubtractBases(AverageThrough(Average(qty, x), fills, mult), AverageThrough(Average(qty, y), fills, mult),
                  CashThrough(qty, fills, mult), qty, x, y, mult);
  }

  lemma {:induction false} SubtractBases(a: real, b: real, cash: real, qty: real, x: real, y: real, mult: real)
    requires a + Value(qty, x, mult) == cash && b + Value(qty, y, mult) == cash
    ensures Scaled(a, b, -(qty * mult), x - y)
  {
  }

  // ---- The solver inverts the walk ------------------------------------------------

  lemma {:induction false} InvertAffine(target: real, base: real, slope: real, c: real)
    requires slope != 0.0
    ensures (target - base) / slope == c <==> Scaled(target, base, slope, c)
  {
    var q := (target - base) / slope;
    assert q * slope == target - base;
    if target - base == slope * c {
      SameProduct(q, c, slope);
    }
  }

  lemma {:induction false} DecideFromAverage(avg0: real, avg1: real, r0: real, r1: real, ibAvg: Option<real>,
                                             target: Option<real>,
                          slope: real, c: real, at: real)
    requires slope != 0.0 && Scaled(avg1, avg0, slope, 1.0 - 0.0) && Scaled(at, avg0, slope, c - 0.0)
    ensures var r := Decide(Some(avg0), r0, Some(avg1), r1, false, ibAvg, target);
            && (ibAvg.None? ==> r == Unsolved("no_ib_avg_cost"))
            && (ibAvg.Some? ==> r.Cost? && (r == Cost(c) <==> at == ibAvg.value))
  {
    if ibAvg.Some? {
      InvertAffine(ibAvg.value, avg0, slope, c);
    }
  }

  lemma {:induction false} DecideFromRealized(avg0: Option<real>, avg1: Option<real>, r0: real, r1: real,
                                              ibAvg: Option<real>,
                           target: Option<real>, slope: real, c: real, at: real)
    requires slope != 0.0 && Scaled(r1, r0, slope, 1.0 - 0.0) && Scaled(at, r0, slope, c - 0.0)
    ensures var r := Decide(avg0, r0, avg1, r1, true, ibAvg, target);
            && (target.None? ==> r == Unsolved("ib_realized_missing"))
            && (target.Some? ==> r.Cost? && (r == Cost(c) <==> at == target.value))
  {
    if target.Some? {
      InvertAffine(target.value, r0, slope, c);
    }
  }

  /**
   Exactly when the solver answers, and what it answers: the one cost at which the average-cost
   walk reproduces the broker's number. It fails only for want of that number; its two other
   fallbacks cannot be reached.
   */
  lemma {:induction false} SolveExactly(seedQty: real, fills: seq<Fill>, mult: real, ibAvg: Option<real>,
                                        ib: Reports, c: real)
    requires Traded(fills) && mult != 0.0 && seedQty != 0.0
    ensures var r, target := Solve(seedQty, fills, mult, ibAvg, ib), Target(seedQty, fills, ib);
            if EverCrosses(seedQty, fills) then
              && (target.None? ==> r == Unsolved("ib_realized_missing"))
              && (target.Some? ==>
                    && r.Cost?
                    && (r == Cost(c) <==> AverageThrough(Average(seedQty, c), fills, mult) == target.value))
            else
              && (ibAvg.None? ==> r == Unsolved("no_ib_avg_cost"))
              && (ibAvg.Some? ==>
                    && r.Cost?
                    && (r == Cost(c) <==> AverageAfter(Average(seedQty, c), fills, mult).avg == ibAvg.value))
  {
    var zero, one, at := Average(seedQty, 0.0), Average(seedQty, 1.0), Average(seedQty, c);
    var s0 := Simulate(Simulation(zero, 0.0, false), fills, mult);
    var s1 := Simulate(Simulation(one, 0.0, false), fills, mult);
    var target := Target(seedQty, fills, ib);
    SimulateIs(Simulation(zero, 0.0, false), fills, mult);
    SimulateIs(Simulation(one, 0.0, false), fills, mult);
    if EverCrosses(seedQty, fills) {
      RealizedIsAffine(seedQty, 1.0, 0.0, fills, mult);
      RealizedIsAffine(seedQty, c, 0.0, fills, mult);
      DecideFromRealized(FinalAvg(s0), FinalAvg(s1), s0.realized, s1.realized, ibAvg, target, -(seedQty * mult),
                         c, AverageThrough(at, fills, mult));
    } else {
      AverageTotalIs(zero, fills, mult);
      AverageTotalIs(one, fills, mult);
      StaysOnSide(seedQty, fills);
      AverageIsAffine(seedQty, 1.0, 0.0, fills, mult);
      AverageIsAffine(seedQty, c, 0.0, fills, mult);
      DecideFromAverage(s0.pos.avg, s1.pos.avg, s0.realized, s1.realized, ibAvg, target, Weight(seedQty, fills),
                        c, AverageAfter(at, fills, mult).avg);
    }
  }
}
