/**
 What a fill does to a stack of lots: the accounting identity, the invariants every
 run keeps, and the refinement of a stack that is matched one share at a time.
 */
module LotProperties {
  import opened Wrappers
  import opened Reals
  import opened LotMatching

  /** Signed position held by the lots (`LifoResult.open_qty`). */
  function Net(lots: seq<Holding>): real {
    if |lots| == 0 then 0.0
    else Net(lots[..|lots| - 1]) + lots[|lots| - 1].qty
  }

  /** Signed money paid for the lots: the sum of quantity times cost times multiplier. */
  function Basis(lots: seq<Holding>, mult: real): real {
    if |lots| == 0 then 0.0
    else Basis(lots[..|lots| - 1], mult) + Value(lots[|lots| - 1].qty, lots[|lots| - 1].cost, mult)
  }

  /** Money a fill moves: proceeds (or minus the outlay) less the commission. */
  function Cash(f: Fill, mult: real): real {
    -Value(f.sq, f.price, mult) - f.comm
  }

  /** Every lot is nonzero and on side `s` (1 long, -1 short). */
  predicate OnSide(lots: seq<Holding>, s: int) {
    && (s == 1 || s == -1)
    && forall i :: 0 <= i < |lots| ==> Sign(lots[i].qty) == s
  }

  /** The lots are all nonzero and on the side of the position they add up to. */
  predicate OneSided(lots: seq<Holding>) {
    forall i :: 0 <= i < |lots| ==> lots[i].qty != 0.0 && Sign(lots[i].qty) == Sign(Net(lots))
  }

  /** `kept` is a lower part of `lots`: only its newest lot may have been reduced. */
  predicate LowerPart(kept: seq<Holding>, lots: seq<Holding>) {
    && |kept| <= |lots|
    && (forall i :: 0 <= i < |kept| - 1 ==> kept[i] == lots[i])
    && (|kept| > 0 ==>
          var i := |kept| - 1;
          && kept[i].cost == lots[i].cost
          && Sign(kept[i].qty) == Sign(lots[i].qty)
          && Abs(kept[i].qty) <= Abs(lots[i].qty))
  }

  // ---- Arithmetic ---------------------------------------------------------

  lemma {:induction false} DivisionUnique(x: real, y: real, q: real)
    requires y != 0.0 && x == q * y
    ensures x / y == q
  {
  }

  /** The commission shares of two parts add up to the share of the whole. */
  lemma {:induction false} SharesAdd(comm: real, a: real, b: real, total: real)
    requires total != 0.0
    ensures Share(comm, a, total) + Share(comm, b, total) == Share(comm, a + b, total)
  {
    var p, q := comm * a, comm * b;
    assert comm * (a + b) == p + q;
    assert (p + q) / total == p / total + q / total;
  }

  lemma {:induction false} WholeShare(comm: real, total: real)
    requires total != 0.0
    ensures Share(comm, total, total) == comm
  {
    DivisionUnique(comm * total, total, comm);
  }

  /** The commission folded into an opened lot is carried by its basis exactly. */
  lemma {:induction false} OpenBasis(price: real, comm: real, qty: real, mult: real)
    requires qty != 0.0 && mult != 0.0
    ensures Value(qty, OpenCost(price, comm, qty, mult, Sign(qty)), mult) == Value(qty, price, mult) + comm
  {
    var d := Abs(qty) * mult;
    var perUnit := Sign(qty) as real * comm / d;
    assert perUnit * d == Sign(qty) as real * comm;
    if qty > 0.0 {
      assert qty * perUnit * mult == comm by { assert d == qty * mult; assert qty * perUnit * mult == perUnit * d; }
    } else {
      assert qty * perUnit * mult == comm by {
        assert d == -(qty * mult);
        assert qty * perUnit * mult == -(perUnit * d);
      }
    }
    assert qty * (price + perUnit) * mult == qty * price * mult + qty * perUnit * mult;
  }

  // ---- Sums over a stack --------------------------------------------------

  lemma {:induction false} SumsOfPush(lots: seq<Holding>, h: Holding, mult: real)
    ensures Net(lots + [h]) == Net(lots) + h.qty
    ensures Basis(lots + [h], mult) == Basis(lots, mult) + Value(h.qty, h.cost, mult)
  {
    assert (lots + [h])[..|lots|] == lots;
  }

  lemma {:induction false} SumsOfWithNewest(lots: seq<Holding>, qty: real, mult: real)
    requires |lots| > 0
    ensures var top := lots[|lots| - 1];
            && Net(WithNewest(lots, qty)) == Net(lots) - top.qty + qty
            && Basis(WithNewest(lots, qty), mult)
               == Basis(lots, mult) - Value(top.qty, top.cost, mult) + Value(qty, top.cost, mult)
  {
    if qty != 0.0 {
      SumsOfPush(lots[..|lots| - 1], Holding(qty, lots[|lots| - 1].cost), mult);
    }
  }

  lemma {:induction false} NetSign(lots: seq<Holding>, s: int)
    requires OnSide(lots, s)
    ensures Sign(Net(lots)) == if |lots| == 0 then 0 else s
  {
    if |lots| > 0 {
      NetSign(lots[..|lots| - 1], s);
    }
  }

  // ---- The accounting identity --------------------------------------------

  /** What `remaining` units of a fill are worth: their price plus their commission share. */
  function Worth(remaining: real, f: Fill, mult: real): real
    requires f.sq != 0.0
  {
    Value(remaining, f.price, mult) + Share(f.comm, Abs(remaining), Abs(f.sq))
  }

  /** The quantity that every turn of the matching loop conserves. */
  function Ledger(m: Matching, f: Fill, mult: real): real
    requires f.sq != 0.0
  {
    m.realized.GetOr(0.0) - Basis(m.lots, mult) - Worth(m.remaining, f, mult)
  }

  lemma {:induction false} ValueAdds(a: real, b: real, price: real, mult: real)
    ensures Value(a + b, price, mult) == Value(a, price, mult) + Value(b, price, mult)
    ensures Value(a - b, price, mult) == Value(a, price, mult) - Value(b, price, mult)
  {
  }

  lemma {:induction false} GainIsValue(price: real, cost: real, matched: real, mult: real, direction: real,
                                       signed: real)
    requires signed == direction * matched
    ensures Gain(price, cost, matched, mult, direction) == Value(signed, price, mult) - Value(signed, cost, mult)
  {
    assert (price - cost) * matched * mult * direction == (price - cost) * (direction * matched) * mult;
  }

  /** The arithmetic of one turn: `step` signed units leave the lot and the fill together. */
  lemma {:induction false} TurnArithmetic(price: real, cost: real, qty: real, matched: real, direction: real,
                                          mult: real,
                       remaining: real, comm: real, total: real, step: real)
    requires total != 0.0 && step == direction * matched
    requires Abs(remaining + step) + matched == Abs(remaining)
    ensures Gain(price, cost, matched, mult, direction) - Share(comm, matched, total)
         == Value(qty - step, cost, mult) - Value(qty, cost, mult)
            + (Value(remaining + step, price, mult) + Share(comm, Abs(remaining + step), total))
            - (Value(remaining, price, mult) + Share(comm, Abs(remaining), total))
  {
    SharesAdd(comm, Abs(remaining + step), matched, total);
    ValueAdds(remaining, step, price, mult);
    ValueAdds(qty, step, cost, mult);
    GainIsValue(price, cost, matched, mult, direction, step);
  }

  /** One turn, with the signed units it moves given a name. */
  lemma {:induction false} StepConserves(m: Matching, r: Matching, f: Fill, mult: real, pnl: real, step: real)
    requires |m.lots| > 0 && f.sq != 0.0
    requires var top := m.lots[|m.lots| - 1];
             && r.lots == WithNewest(m.lots, top.qty - step) && r.remaining == m.remaining + step
             && r.realized.GetOr(0.0) == m.realized.GetOr(0.0) + pnl
             && pnl == Value(top.qty - step, top.cost, mult) - Value(top.qty, top.cost, mult)
                       + Worth(r.remaining, f, mult) - Worth(m.remaining, f, mult)
    ensures Net(r.lots) + r.remaining == Net(m.lots) + m.remaining
    ensures Ledger(r, f, mult) == Ledger(m, f, mult)
  {
    SumsOfWithNewest(m.lots, m.lots[|m.lots| - 1].qty - step, mult);
  }

  lemma {:induction false} TakeConserves(m: Matching, f: Fill, mult: real, matched: real, direction: real)
    requires |m.lots| > 0 && f.sq != 0.0
    requires Abs(m.remaining + direction * matched) + matched == Abs(m.remaining)
    ensures var r := TakeNewest(m, f, mult, matched, direction);
            && Net(r.lots) + r.remaining == Net(m.lots) + m.remaining
            && Ledger(r, f, mult) == Ledger(m, f, mult)
  {
    var top, step := m.lots[|m.lots| - 1], direction * matched;
    var pnl := Gain(f.price, top.cost, matched, mult, direction) - Share(f.comm, matched, Abs(f.sq));
    TurnArithmetic(f.price, top.cost, top.qty, matched, direction, mult, m.remaining, f.comm, Abs(f.sq), step);
    StepConserves(m, TakeNewest(m, f, mult, matched, direction), f, mult, pnl, step);
  }

  lemma {:induction false} SignCases(remaining: real, matched: real, direction: real)
    requires direction == -(Sign(remaining) as real) && 0.0 <= matched <= Abs(remaining)
    ensures Abs(remaining + direction * matched) + matched == Abs(remaining)
  {
  }

  lemma {:induction false} MatchAllConserves(m: Matching, f: Fill, mult: real)
    requires f.sq != 0.0
    ensures var r := MatchAll(m, f, mult);
            && Net(r.lots) + r.remaining == Net(m.lots) + m.remaining
            && Ledger(r, f, mult) == Ledger(m, f, mult)
    decreases |m.lots|, m.remaining != 0.0
  {
    if m.remaining != 0.0 && Opposes(m.lots, m.remaining) {
      var top := m.lots[|m.lots| - 1];
      SignCases(m.remaining, Min(Abs(m.remaining), Abs(top.qty)), Sign(top.qty) as real);
      TakeConserves(m, f, mult, Min(Abs(m.remaining), Abs(top.qty)), Sign(top.qty) as real);
      MatchAllConserves(MatchNewest(m, f, mult), f, mult);
    }
  }

  lemma {:induction false} OpenRestBasis(lots: seq<Holding>, remaining: real, f: Fill, mult: real)
    requires mult != 0.0 && f.sq != 0.0
    ensures Net(OpenRest(lots, remaining, f, mult)) == Net(lots) + remaining
    ensures Basis(OpenRest(lots, remaining, f, mult), mult) == Basis(lots, mult) + Worth(remaining, f, mult)
  {
    if remaining == 0.0 {
      DivisionUnique(f.comm * 0.0, Abs(f.sq), 0.0);
    } else {
      var share := Share(f.comm, Abs(remaining), Abs(f.sq));
      OpenBasis(f.price, share, remaining, mult);
      SumsOfPush(lots, Holding(remaining, OpenCost(f.price, share, remaining, mult, Sign(remaining))), mult);
    }
  }

  lemma {:induction false} SettledIdentity(lots: seq<Holding>, m: Matching, f: Fill, mult: real)
    requires mult != 0.0 && f.sq != 0.0
    requires Net(m.lots) + m.remaining == Net(lots) + f.sq
    requires Ledger(m, f, mult) == Ledger(Matching(lots, f.sq, None), f, mult)
    ensures var after := OpenRest(m.lots, m.remaining, f, mult);
            && Net(after) == Net(lots) + f.sq
            && m.realized.GetOr(0.0) == Cash(f, mult) + Basis(after, mult) - Basis(lots, mult)
  {
    WholeShare(f.comm, Abs(f.sq));
    OpenRestBasis(m.lots, m.remaining, f, mult);
  }

  /** A fill realizes the money it moves plus the change of the basis of the open lots. */
  lemma {:induction false} AccountingIdentity(lots: seq<Holding>, f: Fill, mult: real)
    requires mult != 0.0 && f.sq != 0.0
    ensures var a := Apply(lots, f, mult);
            && Net(a.lots) == Net(lots) + f.sq
            && a.realized.GetOr(0.0) == Cash(f, mult) + Basis(a.lots, mult) - Basis(lots, mult)
  {
    var start := Matching(lots, f.sq, None);
    MatchAllConserves(start, f, mult);
    SettledIdentity(lots, MatchAll(start, f, mult), f, mult);
  }

  // ---- What one fill leaves behind ----------------------------------------

  lemma {:induction false} MatchAllShape(m: Matching, f: Fill, mult: real, s: int)
    requires OnSide(m.lots, s) && f.sq != 0.0
    requires m.remaining == 0.0 || Sign(m.remaining) == -s
    ensures var r := MatchAll(m, f, mult);
            && OnSide(r.lots, s)
            && LowerPart(r.lots, m.lots)
            && (r.remaining == 0.0 || (r.lots == [] && Sign(r.remaining) == -s))
            && (r.realized.Some? <==> m.realized.Some? || (m.remaining != 0.0 && |m.lots| > 0))
    decreases |m.lots|, m.remaining != 0.0
  {
    if m.remaining != 0.0 && Opposes(m.lots, m.remaining) {
      var next := MatchNewest(m, f, mult);
      NewestShape(m, f, mult, s);
      MatchAllShape(next, f, mult, s);
      LowerPartTransitive(MatchAll(next, f, mult).lots, next.lots, m.lots);
    }
  }

  /** One turn of matching reduces or pops the newest lot, and settles the fill unless it popped. */
  lemma {:induction false} NewestShape(m: Matching, f: Fill, mult: real, s: int)
    requires OnSide(m.lots, s) && f.sq != 0.0
    requires m.remaining != 0.0 && Sign(m.remaining) == -s && Opposes(m.lots, m.remaining)
    ensures var r := MatchNewest(m, f, mult);
            && OnSide(r.lots, s) && LowerPart(r.lots, m.lots) && r.realized.Some?
            && (r.remaining == 0.0 || (Sign(r.remaining) == -s && |r.lots| == |m.lots| - 1))
  {
  }

  lemma {:induction false} LowerPartTransitive(a: seq<Holding>, b: seq<Holding>, c: seq<Holding>)
    requires LowerPart(a, b) && LowerPart(b, c)
    ensures LowerPart(a, c)
  {
  }

  /**
   An opening fill pushes one lot and realizes nothing. A closing fill realizes, and keeps a lower
   part of the stack with its costs; when it reaches or crosses zero, only the rest of it is left.
   */
  lemma {:induction false} ApplyShape(lots: seq<Holding>, f: Fill, mult: real)
    requires OneSided(lots) && f.sq != 0.0 && mult != 0.0
    ensures var a, q := Apply(lots, f, mult), Net(lots);
            && OneSided(a.lots)
            && (a.realized.Some? <==> q != 0.0 && Sign(f.sq) != Sign(q))
            && (a.realized.None? ==> a.lots == OpenRest(lots, f.sq, f, mult))
            && (a.realized.Some? && Sign(q + f.sq) == Sign(q) ==> LowerPart(a.lots, lots))
            && (a.realized.Some? && Sign(q + f.sq) != Sign(q) ==> a.lots == OpenRest([], q + f.sq, f, mult))
  {
    var s := if |lots| == 0 then -Sign(f.sq) else Sign(lots[0].qty);
    NetSign(lots, s);
    var start := Matching(lots, f.sq, None);
    MatchAllConserves(start, f, mult);
    if Sign(f.sq) == -s {
      MatchAllShape(start, f, mult, s);
      LeftoverShape(lots, MatchAll(start, f, mult), f, mult, s);
    } else {
      OpenRestBasis(lots, f.sq, f, mult);
    }
  }

  lemma {:induction false} LeftoverShape(lots: seq<Holding>, m: Matching, f: Fill, mult: real, s: int)
    requires f.sq != 0.0 && mult != 0.0 && Sign(f.sq) == -s
    requires OnSide(lots, s) && OnSide(m.lots, s) && LowerPart(m.lots, lots)
    requires m.remaining == 0.0 || (m.lots == [] && Sign(m.remaining) == -s)
    requires Net(m.lots) + m.remaining == Net(lots) + f.sq
    ensures var after, q := OpenRest(m.lots, m.remaining, f, mult), Net(lots);
            && OneSided(after)
            && (Sign(q + f.sq) == Sign(q) && q != 0.0 ==> LowerPart(after, lots))
            && (Sign(q + f.sq) != Sign(q) ==> after == OpenRest([], q + f.sq, f, mult))
  {
    NetSign(lots, s);
    NetSign(m.lots, s);
    if m.remaining == 0.0 {
      assert OpenRest(m.lots, m.remaining, f, mult) == m.lots;
      assert Sign(Net(lots) + f.sq) != Sign(Net(lots)) ==> |m.lots| == 0;
    } else {
      NothingKept(m.remaining, f, mult);
      assert m.remaining == Net(lots) + f.sq;
    }
  }

  /** A fill that left no lot behind opens its rest, if any, as the only one. */
  lemma {:induction false} NothingKept(rest: real, f: Fill, mult: real)
    requires f.sq != 0.0 && mult != 0.0 && rest != 0.0
    ensures Net([]) == 0.0 && |OpenRest([], rest, f, mult)| == 1
    ensures OneSided(OpenRest([], rest, f, mult)) && Net(OpenRest([], rest, f, mult)) == rest
  {
    var cost := OpenCost(f.price, Share(f.comm, Abs(rest), Abs(f.sq)), rest, mult, Sign(rest));
    SumsOfPush([], Holding(rest, cost), mult);
  }
}
