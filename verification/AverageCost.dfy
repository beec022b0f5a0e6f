/**
 The broker's average-cost walk over the same fills (`_simulate_avg`), and what it has in
 common with lot matching: both realize the cash of a fill plus the change of their basis.
 */
module AverageCost {
  import opened Wrappers
  import opened Reals
  import opened LotMatching
  import opened LotProperties

  /** A position carried at average cost. */
  datatype Average = Average(qty: real, avg: real)

  /** The position after a fill, and the P&L the fill realized (None when it opened or added). */
  datatype Averaged = Averaged(pos: Average, realized: Option<real>)

  /** State of the walk: position, P&L realized until the seed was gone, and whether it is. */
  datatype Simulation = Simulation(pos: Average, realized: real, gone: bool)

  predicate Opens(qty: real, f: Fill) {
    qty == 0.0 || Sign(f.sq) == Sign(qty)
  }

  /** The fill takes a position to flat or through zero. */
  predicate Crosses(qty: real, f: Fill) {
    qty != 0.0 && Sign(qty + f.sq) != Sign(qty)
  }

  ghost predicate Traded(fills: seq<Fill>) {
    forall i :: 0 <= i < |fills| ==> fills[i].sq != 0.0
  }

  /** The mean cost of `total` units, `a` of them at `x` and `b` at `y`. */
  function Mean(a: real, x: real, b: real, y: real, total: real): real
    requires total != 0.0
  {
    (a * x + b * y) / total
  }

  /** Average cost after adding to a position. */
  function Blend(p: Average, f: Fill, mult: real): real
    requires f.sq != 0.0 && mult != 0.0 && Opens(p.qty, f)
  {
    var cost := OpenCost(f.price, f.comm, f.sq, mult, Sign(f.sq));
    if p.qty == 0.0 then cost
    else Mean(Abs(p.qty), p.avg, Abs(f.sq), cost, Abs(p.qty + f.sq))
  }

  /** Average cost after reducing, closing or flipping a position. */
  function Rebase(p: Average, f: Fill, mult: real): real
    requires f.sq != 0.0 && mult != 0.0
  {
    var qty := p.qty + f.sq;
    if Sign(qty) != Sign(p.qty) && qty != 0.0
    then OpenCost(f.price, Share(f.comm, Abs(qty), Abs(f.sq)), qty, mult, Sign(qty))
    else p.avg
  }

  function ClosingPnl(p: Average, f: Fill, mult: real): real
    requires f.sq != 0.0
  {
    var closed := Min(Abs(f.sq), Abs(p.qty));
    Gain(f.price, p.avg, closed, mult, Sign(p.qty) as real) - Share(f.comm, closed, Abs(f.sq))
  }

  function AverageStep(p: Average, f: Fill, mult: real): Averaged
    requires f.sq != 0.0 && mult != 0.0
  {
    if Opens(p.qty, f)
    then Averaged(Average(p.qty + f.sq, Blend(p, f, mult)), None)
    else Averaged(Average(p.qty + f.sq, Rebase(p, f, mult)), Some(ClosingPnl(p, f, mult)))
  }

  function SimulationStep(s: Simulation, f: Fill, mult: real): Simulation
    requires f.sq != 0.0 && mult != 0.0
  {
    var n := AverageStep(s.pos, f, mult);
    Simulation(n.pos,
               if s.gone then s.realized else s.realized + n.realized.GetOr(0.0),
               s.gone || Crosses(s.pos.qty, f))
  }

  function Simulate(s: Simulation, fills: seq<Fill>, mult: real): Simulation
    requires Traded(fills) && mult != 0.0
    decreases |fills|
  {
    if |fills| == 0 then s else Simulate(SimulationStep(s, fills[0], mult), fills[1..], mult)
  }

  /** The average-cost walk from a seed position. */
  method SimulateAvg(seedQty: real, seedCost: real, fills: seq<Fill>, mult: real)
    returns (finalAvg: Option<real>, realized: real, gone: bool)
    requires Traded(fills) && mult != 0.0
    ensures var s := Simulate(Simulation(Average(seedQty, seedCost), 0.0, false), fills, mult);
            && finalAvg == (if s.pos.qty != 0.0 then Some(s.pos.avg) else None)
            && realized == s.realized && gone == s.gone
  {
    var qty, avg := seedQty, seedCost;
    realized, gone := 0.0, false;
    ghost var start := Simulation(Average(seedQty, seedCost), 0.0, false);
    assert fills[0..] == fills;
    for i := 0 to |fills|
      invariant Simulate(Simulation(Average(qty, avg), realized, gone), fills[i..], mult)
             == Simulate(start, fills, mult)
    {
      var f := fills[i];
      ghost var before := Simulation(Average(qty, avg), realized, gone);
      assert fills[i..][1..] == fills[i + 1..];
      var newQty := qty + f.sq;
      if qty == 0.0 || Sign(f.sq) == Sign(qty) {
        avg := Blend(Average(qty, avg), f, mult);
      } else {
        var direction := Sign(qty);
        if !gone {
          realized := realized + ClosingPnl(Average(qty, avg), f, mult);
        }
        if Sign(newQty) != direction {
          gone := true;
          if newQty != 0.0 {
            avg := OpenCost(f.price, Share(f.comm, Abs(newQty), Abs(f.sq)), newQty, mult, Sign(newQty));
          }
        }
      }
      qty := newQty;
      assert Simulation(Average(qty, avg), realized, gone) == SimulationStep(before, f, mult);
    }
    finalAvg := if qty != 0.0 then Some(avg) else None;
  }

  // ---- The accounting identity of the walk --------------------------------

  /** Opening or adding moves the basis by exactly the cash paid. */
  lemma {:induction false} AddingIdentity(p: Average, f: Fill, mult: real)
    requires f.sq != 0.0 && mult != 0.0 && Opens(p.qty, f)
    ensures Cash(f, mult) + Value(p.qty + f.sq, Blend(p, f, mult), mult) == Value(p.qty, p.avg, mult)
  {
    var cost := OpenCost(f.price, f.comm, f.sq, mult, Sign(f.sq));
    OpenBasis(f.price, f.comm, f.sq, mult);
    if p.qty == 0.0 {
      assert Value(0.0, p.avg, mult) == 0.0;
    } else {
      WeightedMean(p.qty, p.avg, f.sq, cost);
      ScaleSum(p.qty + f.sq, Blend(p, f, mult), p.qty, p.avg, f.sq, cost, mult);
    }
  }

  lemma {:induction false} WeightedMean(a: real, x: real, b: real, y: real)
    requires (a > 0.0 && b > 0.0) || (a < 0.0 && b < 0.0)
    ensures (a + b) * Mean(Abs(a), x, Abs(b), y, Abs(a + b)) == a * x + b * y
  {
    var mean := Mean(Abs(a), x, Abs(b), y, Abs(a + b));
    assert Abs(a + b) * mean == Abs(a) * x + Abs(b) * y;
    if a < 0.0 {
      assert -(a + b) * mean == -(a * x + b * y);
    }
  }

  lemma {:induction false} ScaleSum(q: real, x: real, a: real, y: real, b: real, z: real, mult: real)
    requires q * x == a * y + b * z
    ensures Value(q, x, mult) == Value(a, y, mult) + Value(b, z, mult)
  {
  }

  /** A fill that closes part of a position realizes its cash plus the change of the basis. */
  lemma {:induction false} ReducingIdentity(p: Average, f: Fill, mult: real)
    requires f.sq != 0.0 && mult != 0.0 && !Opens(p.qty, f) && !Crosses(p.qty, f)
    ensures ClosingPnl(p, f, mult)
         == Cash(f, mult) + Value(p.qty + f.sq, p.avg, mult) - Value(p.qty, p.avg, mult)
  {
    WholeShare(f.comm, Abs(f.sq));
    GainIsValue(f.price, p.avg, Abs(f.sq), mult, Sign(p.qty) as real, -f.sq);
    ValueAdds(p.qty, f.sq, p.avg, mult);
    ValueAdds(0.0, f.sq, p.avg, mult);
    ValueAdds(0.0, f.sq, f.price, mult);
    assert Value(0.0, p.avg, mult) == 0.0 == Value(0.0, f.price, mult);
  }

  /** A fill that crosses zero realizes its cash, less the old basis, plus what its rest opens. */
  lemma {:induction false} CrossingIdentity(p: Average, f: Fill, mult: real)
    requires f.sq != 0.0 && mult != 0.0 && Crosses(p.qty, f)
    ensures !Opens(p.qty, f)
    ensures ClosingPnl(p, f, mult)
         == Cash(f, mult) + Worth(p.qty + f.sq, f, mult) - Value(p.qty, p.avg, mult)
  {
    var rest := p.qty + f.sq;
    WholeShare(f.comm, Abs(f.sq));
    SharesAdd(f.comm, Abs(p.qty), Abs(rest), Abs(f.sq));
    GainIsValue(f.price, p.avg, Abs(p.qty), mult, Sign(p.qty) as real, p.qty);
    ValueAdds(p.qty, f.sq, f.price, mult);
  }
}
