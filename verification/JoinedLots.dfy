/**
 A second reference for lot matching, for any quantities, whole or not: `Trade` trades at a price and a
 commission per unit on a stack in which adjacent lots of one cost and side are joined, so how a fill or
 such lots are cut does not matter (ib_trader/engine/lifo_pnl.py, realize_lifo).
 */
module JoinedLots {
  import opened Wrappers
  import opened Reals
  import opened LotMatching
  import opened LotProperties
  import opened SeedSolver
  import opened ShareStack

  datatype Stack = Empty | Push(below: Stack, top: Holding)

  /** What a fill trades at: its price, its commission per unit, and the contract's multiplier. */
  datatype Terms = Terms(price: real, rate: real, mult: real)

  /** The stack left by a trade, and what it realized. */
  datatype Outcome = Outcome(stack: Stack, pnl: real)

  /** Two lots of one cost and side are one lot. */
  predicate Alike(a: Holding, b: Holding) {
    UnitOf(a) == UnitOf(b)
  }

  /** Put a lot on the stack, into the newest lot when they are alike. */
  function Put(s: Stack, h: Holding): Stack {
    if s.Push? && Alike(s.top, h) then Push(s.below, Holding(s.top.qty + h.qty, h.cost)) else Push(s, h)
  }

  /** The lots with all alike neighbours joined. */
  function Joined(lots: seq<Holding>): Stack {
    if |lots| == 0 then Empty else Put(Joined(lots[..|lots| - 1]), lots[|lots| - 1])
  }

  predicate Nonzero(lots: seq<Holding>) {
    forall i :: 0 <= i < |lots| ==> lots[i].qty != 0.0
  }

  /** What closing one unit of a lot realizes. */
  function UnitPnl(t: Terms, h: Holding): real {
    (t.price - h.cost) * t.mult * Sign(h.qty) as real - t.rate
  }

  /** What a lot costs per unit when it is opened on side `s`. */
  function OpenedAt(t: Terms, s: int): real
    requires t.mult != 0.0
  {
    t.price + s as real * (t.rate / t.mult)
  }

  function TermsOf(f: Fill, mult: real): Terms
    requires f.sq != 0.0
  {
    Terms(f.price, f.comm / Abs(f.sq), mult)
  }

  predicate Faces(s: Stack, q: real) {
    s.Push? && Sign(s.top.qty) == -Sign(q)
  }

  /** Trade `q` signed units: out of the newest lots while they are on the other side, then open a lot. */
  function Trade(s: Stack, q: real, t: Terms): Outcome
    requires t.mult != 0.0
    decreases s
  {
    if q == 0.0 then Outcome(s, 0.0)
    else if !Faces(s, q) then Outcome(Put(s, Holding(q, OpenedAt(t, Sign(q)))), 0.0)
    else if Abs(q) < Abs(s.top.qty)
    then Outcome(Push(s.below, s.top.(qty := s.top.qty + q)), Times(Abs(q), UnitPnl(t, s.top)))
    else
      var rest := Trade(s.below, q + s.top.qty, t);
      Outcome(rest.stack, Times(Abs(s.top.qty), UnitPnl(t, s.top)) + rest.pnl)
  }

  // ---- Trading joined lots -------------------------------------------------------------------

  lemma {:induction false} TimesAdds(x: real, y: real, z: real)
    ensures Times(x + y, z) == Times(x, z) + Times(y, z)
  {
  }

  lemma {:induction false} SameUnitPnl(t: Terms, a: Holding, b: Holding)
    requires Alike(a, b)
    ensures UnitPnl(t, a) == UnitPnl(t, b)
  {
  }

  /** A trade that takes `x` units out of the newest lot, all of it or not, and then the rest. */
  lemma {:induction false} TakeFirst(below: Stack, top: Holding, x: real, q: real, t: Terms, rest: Outcome)
    requires t.mult != 0.0 && q != 0.0 && x != 0.0 && Sign(top.qty) == Sign(x) == -Sign(q)
    requires Abs(x) < Abs(top.qty) && Abs(x) <= Abs(q)
    requires rest == Trade(Push(below, top.(qty := top.qty - x)), q + x, t)
    ensures Trade(Push(below, top), q, t) == Outcome(rest.stack, Times(Abs(x), UnitPnl(t, top)) + rest.pnl)
  {
    var unit, left := UnitPnl(t, top), top.qty - x;
    SameUnitPnl(t, top, top.(qty := left));
    if Abs(q) < Abs(top.qty) {
      TimesAdds(Abs(x), Abs(q + x), unit);
      assert left + (q + x) == top.qty + q;
    } else {
      TimesAdds(Abs(x), Abs(left), unit);
      assert q + x + left == q + top.qty;
    }
  }

  /** A trade that takes all of the lot just put there goes on below it. */
  lemma {:induction false} TradeThrough(s: Stack, h: Holding, q: real, t: Terms, rest: Outcome)
    requires t.mult != 0.0 && h.qty != 0.0 && Sign(h.qty) == -Sign(q) && Abs(h.qty) <= Abs(q)
    requires rest == Trade(s, q + h.qty, t)
    ensures Trade(Put(s, h), q, t) == Outcome(rest.stack, Times(Abs(h.qty), UnitPnl(t, h)) + rest.pnl)
  {
    if s.Push? && Alike(s.top, h) {
      var top := Holding(s.top.qty + h.qty, h.cost);
      SameUnitPnl(t, top, h);
      assert top.(qty := top.qty - h.qty) == s.top;
      TakeFirst(s.below, top, h.qty, q, t, rest);
    }
  }

  /** A trade that takes a part of the lot just put there leaves the rest of it. */
  lemma {:induction false} TradeWithin(s: Stack, h: Holding, q: real, t: Terms)
    requires t.mult != 0.0 && q != 0.0 && Sign(h.qty) == -Sign(q) && Abs(q) < Abs(h.qty)
    ensures Trade(Put(s, h), q, t) == Outcome(Put(s, h.(qty := h.qty + q)), Times(Abs(q), UnitPnl(t, h)))
  {
  }

  /** Trading in two goes is trading at once. */
  lemma {:induction false} TradeInTwo(s: Stack, q: real, r: real, t: Terms, first: Outcome, second: Outcome)
    requires t.mult != 0.0 && q != 0.0 && r != 0.0 && Sign(q) == Sign(r)
    requires first == Trade(s, q, t) && second == Trade(first.stack, r, t)
    ensures Trade(s, q + r, t) == Outcome(second.stack, first.pnl + second.pnl)
    decreases s
  {
    if Faces(s, q) && Abs(q) < Abs(s.top.qty) {
      TakeFirst(s.below, s.top, -q, q + r, t, second);
    } else if Faces(s, q) {
      TradeInTwoBelow(s, q, r, t, Trade(s.below, q + s.top.qty, t), second);
    }
  }

  lemma {:induction false} TradeInTwoBelow(s: Stack, q: real, r: real, t: Terms, first: Outcome, second: Outcome)
    requires t.mult != 0.0 && q != 0.0 && r != 0.0 && Sign(q) == Sign(r)
    requires Faces(s, q) && Abs(s.top.qty) <= Abs(q)
    requires first == Trade(s.below, q + s.top.qty, t) && second == Trade(first.stack, r, t)
    ensures Trade(s, q + r, t)
         == Outcome(second.stack, Times(Abs(s.top.qty), UnitPnl(t, s.top)) + first.pnl + second.pnl)
    decreases s, 0
  {
    assert q + r + s.top.qty == q + s.top.qty + r;
    if q + s.top.qty != 0.0 {
      TradeInTwo(s.below, q + s.top.qty, r, t, first, second);
    }
  }

  // ---- Block matching is trading joined lots ---------------------------------------------------

  lemma {:induction false} TurnPnlIs(f: Fill, lot: Holding, matched: real, mult: real)
    requires f.sq != 0.0
    ensures Gain(f.price, lot.cost, matched, mult, Sign(lot.qty) as real) - Share(f.comm, matched, Abs(f.sq))
         == Times(matched, UnitPnl(TermsOf(f, mult), lot))
  {
    var rate, d := f.comm / Abs(f.sq), Sign(lot.qty) as real;
    PerShare(f.comm, matched, Abs(f.sq));
    assert (f.price - lot.cost) * matched * mult * d == matched * ((f.price - lot.cost) * mult * d);
    assert matched * ((f.price - lot.cost) * mult * d - rate)
        == matched * ((f.price - lot.cost) * mult * d) - matched * rate;
  }

  lemma {:induction false} OpenedAtIs(f: Fill, rest: real, mult: real)
    requires f.sq != 0.0 && rest != 0.0 && mult != 0.0
    ensures OpenCost(f.price, Share(f.comm, Abs(rest), Abs(f.sq)), rest, mult, Sign(rest))
         == OpenedAt(TermsOf(f, mult), Sign(rest))
  {
    var rate, s := f.comm / Abs(f.sq), Sign(rest) as real;
    PerShare(f.comm, Abs(rest), Abs(f.sq));
    var x := rate / mult;
    assert x * mult == rate;
    assert s * x * (Abs(rest) * mult) == s * (Abs(rest) * rate);
    DivisionUnique(s * (Abs(rest) * rate), Abs(rest) * mult, s * x);
  }

  lemma {:induction false} JoinedPush(lots: seq<Holding>, h: Holding)
    ensures Joined(lots + [h]) == Put(Joined(lots), h)
  {
    assert (lots + [h])[..|lots|] == lots;
  }

  /** One turn of the matching loop takes the newest lot, or the rest of the fill out of it. */
  lemma {:induction false} TurnIs(m: Matching, next: Matching, f: Fill, mult: real)
    requires f.sq != 0.0 && m.remaining != 0.0 && Opposes(m.lots, m.remaining) && next == MatchNewest(m, f, mult)
    ensures var top := m.lots[|m.lots| - 1];
            var matched := Min(Abs(m.remaining), Abs(top.qty));
            && next.realized.GetOr(0.0) == m.realized.GetOr(0.0) + Times(matched, UnitPnl(TermsOf(f, mult), top))
            && if Abs(m.remaining) < Abs(top.qty)
               then next.remaining == 0.0 && next.lots == WithNewest(m.lots, top.qty + m.remaining)
               else next.remaining == m.remaining + top.qty && next.lots == m.lots[..|m.lots| - 1]
  {
    var top := m.lots[|m.lots| - 1];
    TurnPnlIs(f, top, Min(Abs(m.remaining), Abs(top.qty)), mult);
    TakenIsSigned(m.remaining, top.qty);
  }

  /** The same turn on the joined lots. */
  lemma {:induction false} TurnTrades(lots: seq<Holding>, q: real, next: seq<Holding>, q': real, t: Terms,
                                      rest: Outcome)
    requires Nonzero(lots) && Opposes(lots, q) && q != 0.0 && t.mult != 0.0
    requires var top := lots[|lots| - 1].qty;
             if Abs(q) < Abs(top) then q' == 0.0 && next == WithNewest(lots, top + q)
             else q' == q + top && next == lots[..|lots| - 1]
    requires rest == Trade(Joined(next), q', t)
    ensures var top := lots[|lots| - 1];
            var pnl := Times(Min(Abs(q), Abs(top.qty)), UnitPnl(t, top));
            Trade(Joined(lots), q, t) == Outcome(rest.stack, pnl + rest.pnl)
  {
    var older, top := lots[..|lots| - 1], lots[|lots| - 1];
    if Abs(q) < Abs(top.qty) {
      TradeWithin(Joined(older), top, q, t);
      JoinedPush(older, top.(qty := top.qty + q));
    } else {
      TradeThrough(Joined(older), top, q, t, rest);
    }
  }

  /** What no lot is left to take is opened. */
  lemma {:induction false} RestOpens(lots: seq<Holding>, q: real, f: Fill, mult: real)
    requires f.sq != 0.0 && mult != 0.0 && (q == 0.0 || !Opposes(lots, q))
    ensures Trade(Joined(lots), q, TermsOf(f, mult)) == Outcome(Joined(OpenRest(lots, q, f, mult)), 0.0)
  {
    if q != 0.0 {
      OpenedAtIs(f, q, mult);
      JoinedPush(lots, Holding(q, OpenedAt(TermsOf(f, mult), Sign(q))));
    }
  }

  lemma {:induction false} TurnKeepsNonzero(m: Matching, f: Fill, mult: real)
    requires m.remaining != 0.0 && Opposes(m.lots, m.remaining) && f.sq != 0.0 && Nonzero(m.lots)
    ensures Nonzero(MatchNewest(m, f, mult).lots)
  {
  }

  lemma {:induction false} MatchIsTrade(m: Matching, r: Matching, f: Fill, mult: real, t: Terms, traded: Outcome)
    requires f.sq != 0.0 && mult != 0.0 && t == TermsOf(f, mult) && traded == Trade(Joined(m.lots), m.remaining, t)
    requires Nonzero(m.lots) && r == MatchAll(m, f, mult)
    ensures Nonzero(r.lots) && Joined(OpenRest(r.lots, r.remaining, f, mult)) == traded.stack
    ensures r.realized.GetOr(0.0) == m.realized.GetOr(0.0) + traded.pnl
    decreases |m.lots|, m.remaining != 0.0
  {
    if m.remaining != 0.0 && Opposes(m.lots, m.remaining) {
      var next := MatchNewest(m, f, mult);
      var rest := Trade(Joined(next.lots), next.remaining, t);
      TurnIs(m, next, f, mult);
      TurnKeepsNonzero(m, f, mult);
      TurnTrades(m.lots, m.remaining, next.lots, next.remaining, t, rest);
      MatchIsTrade(next, r, f, mult, t, rest);
    } else {
      RestOpens(m.lots, m.remaining, f, mult);
    }
  }

  /** Applying a fill is trading it, at its price and commission per unit, on the joined lots. */
  lemma {:induction false} ApplyIsTrade(lots: seq<Holding>, f: Fill, mult: real, r: Applied)
    requires Nonzero(lots) && f.sq != 0.0 && mult != 0.0 && r == Apply(lots, f, mult)
    ensures Trade(Joined(lots), f.sq, TermsOf(f, mult)) == Outcome(Joined(r.lots), r.realized.GetOr(0.0))
    ensures Nonzero(r.lots)
  {
    var start := Matching(lots, f.sq, None);
    MatchIsTrade(start, MatchAll(start, f, mult), f, mult, TermsOf(f, mult),
                 Trade(Joined(lots), f.sq, TermsOf(f, mult)));
  }

  // ---- Joined lots and shares ------------------------------------------------------------------

  /** The shares the stack stands for, oldest first. */
  function Shares(s: Stack): seq<Unit> {
    match s
    case Empty => []
    case Push(below, top) => Shares(below) + Copies(UnitOf(top), Units(top.qty))
  }

  /** Whole lots, no neighbours alike. */
  predicate Proper(s: Stack) {
    s.Push? ==>
      && s.top.qty != 0.0 && Whole(s.top.qty) && Proper(s.below)
      && (s.below.Push? ==> !Alike(s.below.top, s.top))
  }

  lemma {:induction false} UnitsAdd(x: real, y: real)
    requires Whole(x) && Whole(y) && Sign(x) == Sign(y)
    ensures Whole(x + y) && Units(x + y) == Units(x) + Units(y)
  {
    WholeOf(x + y, x.Floor + y.Floor);
  }

  lemma {:induction false} SharesOfPut(s: Stack, h: Holding)
    requires Proper(s) && h.qty != 0.0 && Whole(h.qty)
    ensures Proper(Put(s, h)) && Shares(Put(s, h)) == Shares(s) + Copies(UnitOf(h), Units(h.qty))
  {
    if s.Push? && Alike(s.top, h) {
      var u, m, n := UnitOf(h), Units(s.top.qty), Units(h.qty);
      UnitsAdd(s.top.qty, h.qty);
      assert Shares(s.below) + Copies(u, m) + Copies(u, n) == Shares(s.below) + Copies(u, m + n);
    }
  }

  lemma {:induction false} SharesOfJoined(lots: seq<Holding>)
    requires WholeLots(lots)
    ensures Proper(Joined(lots)) && Shares(Joined(lots)) == Expand(lots)
  {
    if |lots| > 0 {
      SharesOfJoined(lots[..|lots| - 1]);
      SharesOfPut(Joined(lots[..|lots| - 1]), lots[|lots| - 1]);
    }
  }

  lemma {:induction false} NewestShare(s: Stack)
    requires Proper(s) && s.Push?
    ensures |Shares(s)| > 0 && Shares(s)[|Shares(s)| - 1] == UnitOf(s.top)
  {
  }

  lemma {:induction false} LongerEndsInRun(a: seq<Unit>, b: seq<Unit>, u: Unit, m: nat, n: nat)
    requires a + Copies(u, m) == b + Copies(u, n)
    ensures |a| + m == |b| + n
    ensures |b| < |a| ==> a[|a| - 1] == u
  {
    assert |a + Copies(u, m)| == |a| + m;
    assert |b| < |a| ==> (b + Copies(u, n))[|a| - 1] == u;
  }

  /** Where a longest run of one unit ends a sequence, its length and what is before it are fixed. */
  lemma {:induction false} RunsAgree(a: seq<Unit>, b: seq<Unit>, u: Unit, m: nat, n: nat)
    requires a + Copies(u, m) == b + Copies(u, n)
    requires (|a| > 0 ==> a[|a| - 1] != u) && (|b| > 0 ==> b[|b| - 1] != u)
    ensures a == b && m == n
  {
    LongerEndsInRun(a, b, u, m, n);
    LongerEndsInRun(b, a, u, n, m);
    assert a == (a + Copies(u, m))[..|a|] && b == (b + Copies(u, n))[..|b|];
  }

  lemma {:induction false} SharesInjective(s: Stack, t: Stack)
    requires Proper(s) && Proper(t) && Shares(s) == Shares(t)
    ensures s == t
  {
    if s.Push? {
      NewestShare(s);
    }
    if t.Push? {
      NewestShare(t);
    }
    if s.Push? && t.Push? {
      if s.below.Push? {
        NewestShare(s.below);
      }
      if t.below.Push? {
        NewestShare(t.below);
      }
      RunsAgree(Shares(s.below), Shares(t.below), UnitOf(s.top), Units(s.top.qty), Units(t.top.qty));
      SharesInjective(s.below, t.below);
    }
  }

  /** Whole lots join to the same stack exactly when they stand for the same shares. */
  lemma {:induction false} JoinedIffShares(a: seq<Holding>, b: seq<Holding>)
    requires WholeLots(a) && WholeLots(b)
    ensures Joined(a) == Joined(b) <==> Expand(a) == Expand(b)
  {
    SharesOfJoined(a);
    SharesOfJoined(b);
    if Expand(a) == Expand(b) {
      SharesInjective(Joined(a), Joined(b));
    }
  }
}
