/**
 The reference for lot matching: a stack of single shares, traded one share at a time.
 Block matching of whole-number lots refines it, so how a fill is cut up does not matter.
 */
module ShareStack {
  import opened Wrappers
  import opened Reals
  import opened LotMatching
  import opened LotProperties

  /** One share of a position: its side (1 long, -1 short) and its cost. */
  datatype Unit = Unit(direction: int, cost: real)

  /** The open shares, oldest first, and the shares closed so far. */
  datatype UnitBook = UnitBook(stack: seq<Unit>, closed: seq<Unit>)

  /** Trade one share: it closes the newest share of the other side, or is opened. */
  function TradeShare(b: UnitBook, u: Unit): UnitBook {
    var newest := |b.stack| - 1;
    if newest >= 0 && b.stack[newest].direction == -u.direction
    then UnitBook(b.stack[..newest], b.closed + [b.stack[newest]])
    else UnitBook(b.stack + [u], b.closed)
  }

  /** Trade `n` shares one after the other. */
  function TradeShares(b: UnitBook, u: Unit, n: nat): UnitBook
    decreases n
  {
    if n == 0 then b else TradeShares(TradeShare(b, u), u, n - 1)
  }

  /** What closing the shares gains, given what closing one share gains. */
  function TotalGain(closed: seq<Unit>, gain: Unit -> real): real {
    if |closed| == 0 then 0.0 else gain(closed[0]) + TotalGain(closed[1..], gain)
  }

  /** What closing one share gains under fill `f`: it pays the commission of one share. */
  function ShareGain(f: Fill, mult: real): Unit -> real
    requires f.sq != 0.0
  {
    (u: Unit) => Gain(f.price, u.cost, 1.0, mult, u.direction as real) - f.comm / Abs(f.sq)
  }

  predicate Whole(x: real) {
    x == x.Floor as real
  }

  predicate WholeLots(lots: seq<Holding>) {
    forall i :: 0 <= i < |lots| ==> lots[i].qty != 0.0 && Whole(lots[i].qty)
  }

  function Units(x: real): nat {
    if x < 0.0 then -x.Floor else x.Floor
  }

  function Copies(u: Unit, n: nat): seq<Unit> {
    seq(n, _ => u)
  }

  function UnitOf(h: Holding): Unit {
    Unit(Sign(h.qty), h.cost)
  }

  /** The shares a stack of lots stands for, oldest first. */
  function Expand(lots: seq<Holding>): seq<Unit> {
    if |lots| == 0 then []
    else
      var top := lots[|lots| - 1];
      Expand(lots[..|lots| - 1]) + Copies(UnitOf(top), Units(top.qty))
  }

  /** The share a fill opens: its price with one share's commission folded in. */
  function OpenedUnit(f: Fill, mult: real): Unit
    requires f.sq != 0.0 && mult != 0.0
  {
    Unit(Sign(f.sq), OpenCost(f.price, f.comm / Abs(f.sq), 1.0, mult, Sign(f.sq)))
  }

  // ---- Runs of shares ------------------------------------------------------

  lemma {:induction false} TradeSharesSplit(b: UnitBook, u: Unit, n: nat, k: nat, rest: nat)
    requires n == k + rest
    ensures TradeShares(b, u, n) == TradeShares(TradeShares(b, u, k), u, rest)
    decreases k
  {
    if k > 0 {
      TradeSharesSplit(TradeShare(b, u), u, n - 1, k - 1, rest);
    }
  }

  lemma {:induction false} CloseShares(below: seq<Unit>, v: Unit, k: nat, closed: seq<Unit>, u: Unit, n: nat)
    requires v.direction == -u.direction && n <= k
    ensures TradeShares(UnitBook(below + Copies(v, k), closed), u, n)
         == UnitBook(below + Copies(v, k - n), closed + Copies(v, n))
    decreases n
  {
    if n == 0 {
      assert closed + Copies(v, 0) == closed;
    } else {
      var b := UnitBook(below + Copies(v, k), closed);
      assert TradeShare(b, u) == UnitBook(below + Copies(v, k - 1), closed + [v]);
      CloseShares(below, v, k - 1, closed + [v], u, n - 1);
      assert closed + [v] + Copies(v, n - 1) == closed + Copies(v, n);
    }
  }

  lemma {:induction false} TakeShares(below: seq<Unit>, v: Unit, k: nat, closed: seq<Unit>, u: Unit, n: nat, j: nat)
    requires v.direction == -u.direction && j <= k && j <= n
    ensures TradeShares(UnitBook(below + Copies(v, k), closed), u, n)
         == TradeShares(UnitBook(below + Copies(v, k - j), closed + Copies(v, j)), u, n - j)
  {
    TradeSharesSplit(UnitBook(below + Copies(v, k), closed), u, n, j, n - j);
    CloseShares(below, v, k, closed, u, j);
  }

  lemma {:induction false} OpenShares(b: UnitBook, u: Unit, n: nat)
    requires u.direction != 0
    requires |b.stack| > 0 ==> b.stack[|b.stack| - 1].direction != -u.direction
    ensures TradeShares(b, u, n) == UnitBook(b.stack + Copies(u, n), b.closed)
    decreases n
  {
    if n == 0 {
      assert b.stack + Copies(u, 0) == b.stack;
    } else {
      OpenShares(TradeShare(b, u), u, n - 1);
      assert b.stack + [u] + Copies(u, n - 1) == b.stack + Copies(u, n);
    }
  }

  lemma {:induction false} TotalGainAdds(a: seq<Unit>, b: seq<Unit>, gain: Unit -> real)
    ensures TotalGain(a + b, gain) == TotalGain(a, gain) + TotalGain(b, gain)
  {
    if |a| == 0 {
      assert a + b == b;
    } else {
      assert (a + b)[1..] == a[1..] + b;
      TotalGainAdds(a[1..], b, gain);
    }
  }

  lemma {:induction false} TotalGainCopies(u: Unit, n: nat, gain: Unit -> real)
    ensures TotalGain(Copies(u, n), gain) == n as real * gain(u)
  {
    if n > 0 {
      assert Copies(u, n)[1..] == Copies(u, n - 1);
      TotalGainCopies(u, n - 1, gain);
    }
  }

  // ---- Whole numbers --------------------------------------------------------

  lemma {:induction false} WholeOf(x: real, n: int)
    requires x == n as real
    ensures Whole(x) && Units(x) == if n < 0 then -n else n
  {
  }

  /** The signed units that the newest lot gives up to a fill of the other side. */
  function Taken(remaining: real, qty: real): real {
    var matched := Min(Abs(remaining), Abs(qty));
    if qty > 0.0 then matched else -matched
  }

  lemma {:induction false} TakenIsSigned(remaining: real, qty: real)
    requires qty != 0.0
    ensures Sign(qty) as real * Min(Abs(remaining), Abs(qty)) == Taken(remaining, qty)
  {
  }

  /** Units the newest lot and the fill have in common, and what is left of each. */
  lemma {:induction false} TurnUnits(remaining: real, qty: real)
    requires Whole(remaining) && Whole(qty) && remaining != 0.0 && Sign(qty) == -Sign(remaining)
    ensures var matched := Min(Abs(remaining), Abs(qty));
            var j, left, rest := Units(matched), qty - Taken(remaining, qty), remaining + Taken(remaining, qty);
            && matched == j as real && j <= Units(qty) && j <= Units(remaining)
            && Whole(left) && Units(left) == Units(qty) - j && (left == 0.0 || Sign(left) == Sign(qty))
            && Whole(rest) && Units(rest) == Units(remaining) - j && (rest == 0.0 || Sign(rest) == Sign(remaining))
  {
    var a, b := remaining.Floor, qty.Floor;
    if qty > 0.0 {
      var j := if -a <= b then -a else b;
      WholeOf(Min(Abs(remaining), Abs(qty)), j);
      WholeOf(qty - j as real, b - j);
      WholeOf(remaining + j as real, a + j);
    } else {
      var j := if a <= -b then a else -b;
      WholeOf(Min(Abs(remaining), Abs(qty)), j);
      WholeOf(qty + j as real, b + j);
      WholeOf(remaining - j as real, a - j);
    }
  }

  lemma {:induction false} PerShare(comm: real, part: real, total: real)
    requires total != 0.0
    ensures part * (comm / total) == Share(comm, part, total)
  {
    var per := comm / total;
    assert per * total == comm;
    DivisionUnique(comm * part, total, per * part);
  }

  lemma {:induction false} TurnPnl(price: real, cost: real, matched: real, mult: real, direction: real,
                                   comm: real, total: real)
    requires total != 0.0
    ensures matched * (Gain(price, cost, 1.0, mult, direction) - comm / total)
         == Gain(price, cost, matched, mult, direction) - Share(comm, matched, total)
  {
    PerShare(comm, matched, total);
    assert matched * ((price - cost) * 1.0 * mult * direction) == (price - cost) * matched * mult * direction;
  }

  // ---- Block matching refines the stack of shares ----------------------------

  lemma {:induction false} ExpandWithNewest(lots: seq<Holding>, qty: real)
    requires |lots| > 0 && (qty == 0.0 || Sign(qty) == Sign(lots[|lots| - 1].qty))
    ensures Expand(WithNewest(lots, qty))
         == Expand(lots[..|lots| - 1]) + Copies(UnitOf(lots[|lots| - 1]), Units(qty))
  {
    var older := lots[..|lots| - 1];
    if qty != 0.0 {
      assert WithNewest(lots, qty)[..|older|] == older;
    }
  }

  /** Shares the next turn of the block loop closes. */
  function TurnClosed(m: Matching): nat
    requires |m.lots| > 0
  {
    Units(Min(Abs(m.remaining), Abs(m.lots[|m.lots| - 1].qty)))
  }

  /** The shares the block loop closes, in the order it closes them. */
  function BlockClosed(m: Matching, f: Fill, mult: real): seq<Unit>
    requires m.remaining != 0.0 ==> f.sq != 0.0
    decreases |m.lots|, m.remaining != 0.0
  {
    if m.remaining != 0.0 && Opposes(m.lots, m.remaining)
    then Copies(UnitOf(m.lots[|m.lots| - 1]), TurnClosed(m)) + BlockClosed(MatchNewest(m, f, mult), f, mult)
    else []
  }

  lemma {:induction false} TurnRefines(lots: seq<Holding>, left: real, n: nat, j: nat, u: Unit, closed: seq<Unit>)
    requires |lots| > 0 && UnitOf(lots[|lots| - 1]).direction == -u.direction
    requires left == 0.0 || Sign(left) == Sign(lots[|lots| - 1].qty)
    requires j <= n && Units(left) == Units(lots[|lots| - 1].qty) - j
    ensures TradeShares(UnitBook(Expand(lots), closed), u, n)
         == TradeShares(UnitBook(Expand(WithNewest(lots, left)), closed + Copies(UnitOf(lots[|lots| - 1]), j)),
                         u, n - j)
  {
    var top := lots[|lots| - 1];
    ExpandWithNewest(lots, left);
    TakeShares(Expand(lots[..|lots| - 1]), UnitOf(top), Units(top.qty), closed, u, n, j);
  }

  lemma {:induction false} WholeWithNewest(lots: seq<Holding>, qty: real)
    requires |lots| > 0 && WholeLots(lots) && Whole(qty)
    ensures WholeLots(WithNewest(lots, qty))
  {
  }

  lemma {:induction false} TurnCloses(m: Matching, r: Matching, u: Unit, closed: seq<Unit>)
    requires m.remaining != 0.0 && Opposes(m.lots, m.remaining)
    requires WholeLots(m.lots) && Whole(m.remaining) && u.direction == Sign(m.remaining)
    requires var qty := m.lots[|m.lots| - 1].qty;
             && r.lots == WithNewest(m.lots, qty - Taken(m.remaining, qty))
             && r.remaining == m.remaining + Taken(m.remaining, qty)
    ensures WholeLots(r.lots) && Whole(r.remaining) && (r.remaining == 0.0 || Sign(r.remaining) == u.direction)
    ensures TradeShares(UnitBook(Expand(m.lots), closed), u, Units(m.remaining))
         == TradeShares(UnitBook(Expand(r.lots), closed + Copies(UnitOf(m.lots[|m.lots| - 1]), TurnClosed(m))),
                        u, Units(r.remaining))
  {
    var qty := m.lots[|m.lots| - 1].qty;
    TurnUnits(m.remaining, qty);
    TurnCounts(m.lots, r.lots, qty - Taken(m.remaining, qty), Units(m.remaining), Units(r.remaining), TurnClosed(m),
               u, closed);
  }

  /** One turn, on counts of shares. */
  lemma {:induction false} TurnCounts(lots: seq<Holding>, after: seq<Holding>, left: real, n: nat, rest: nat, j: nat,
                                      u: Unit, closed: seq<Unit>)
    requires |lots| > 0 && WholeLots(lots) && Whole(left) && after == WithNewest(lots, left)
    requires UnitOf(lots[|lots| - 1]).direction == -u.direction
    requires left == 0.0 || Sign(left) == Sign(lots[|lots| - 1].qty)
    requires n == j + rest && Units(left) == Units(lots[|lots| - 1].qty) - j
    ensures WholeLots(after)
    ensures TradeShares(UnitBook(Expand(lots), closed), u, n)
         == TradeShares(UnitBook(Expand(after), closed + Copies(UnitOf(lots[|lots| - 1]), j)), u, rest)
  {
    WholeWithNewest(lots, left);
    TurnRefines(lots, left, n, j, u, closed);
  }

  lemma {:induction false} TurnTakes(m: Matching, f: Fill, mult: real)
    requires m.remaining != 0.0 && Opposes(m.lots, m.remaining) && f.sq != 0.0
    ensures var r, qty := MatchNewest(m, f, mult), m.lots[|m.lots| - 1].qty;
            && r.lots == WithNewest(m.lots, qty - Taken(m.remaining, qty))
            && r.remaining == m.remaining + Taken(m.remaining, qty)
  {
    TakenIsSigned(m.remaining, m.lots[|m.lots| - 1].qty);
  }

  /** The block loop closes the shares, and leaves the shares, that trading them singly does. */
  lemma {:induction false} BlockCloses(m: Matching, f: Fill, mult: real, u: Unit, closed: seq<Unit>)
    requires f.sq != 0.0 && WholeLots(m.lots) && Whole(m.remaining)
    requires u.direction != 0 && (m.remaining == 0.0 || u.direction == Sign(m.remaining))
    ensures var r := MatchAll(m, f, mult);
            && WholeLots(r.lots) && Whole(r.remaining) && (r.remaining == 0.0 || Sign(r.remaining) == u.direction)
            && TradeShares(UnitBook(Expand(m.lots), closed), u, Units(m.remaining))
            == UnitBook(Expand(r.lots) + Copies(u, Units(r.remaining)), closed + BlockClosed(m, f, mult))
    decreases |m.lots|, m.remaining != 0.0
  {
    if m.remaining != 0.0 && Opposes(m.lots, m.remaining) {
      var r, more := MatchNewest(m, f, mult), Copies(UnitOf(m.lots[|m.lots| - 1]), TurnClosed(m));
      TurnTakes(m, f, mult);
      TurnCloses(m, r, u, closed);
      BlockCloses(r, f, mult, u, closed + more);
      assert closed + more + BlockClosed(r, f, mult) == closed + (more + BlockClosed(r, f, mult));
    } else {
      NothingCloses(m.lots, m.remaining, u, closed);
    }
  }

  lemma {:induction false} NothingCloses(lots: seq<Holding>, remaining: real, u: Unit, closed: seq<Unit>)
    requires WholeLots(lots) && (remaining == 0.0 || !Opposes(lots, remaining))
    requires u.direction != 0 && (remaining == 0.0 || u.direction == Sign(remaining))
    ensures TradeShares(UnitBook(Expand(lots), closed), u, Units(remaining))
         == UnitBook(Expand(lots) + Copies(u, Units(remaining)), closed + [])
  {
    assert closed + [] == closed;
    if remaining == 0.0 {
      assert Expand(lots) + Copies(u, 0) == Expand(lots);
    } else {
      LastUnit(lots);
      OpenShares(UnitBook(Expand(lots), closed), u, Units(remaining));
    }
  }

  lemma {:induction false} TurnGains(m: Matching, f: Fill, mult: real)
    requires m.remaining != 0.0 && Opposes(m.lots, m.remaining) && f.sq != 0.0
    requires WholeLots(m.lots) && Whole(m.remaining)
    ensures MatchNewest(m, f, mult).realized.GetOr(0.0) - m.realized.GetOr(0.0)
         == TotalGain(Copies(UnitOf(m.lots[|m.lots| - 1]), TurnClosed(m)), ShareGain(f, mult))
  {
    var top := m.lots[|m.lots| - 1];
    TurnUnits(m.remaining, top.qty);
    TotalGainCopies(UnitOf(top), TurnClosed(m), ShareGain(f, mult));
    TurnPnl(f.price, top.cost, TurnClosed(m) as real, mult, Sign(top.qty) as real, f.comm, Abs(f.sq));
  }

  /** The block loop realizes what its shares gain one by one. */
  lemma {:induction false} BlockGains(m: Matching, f: Fill, mult: real)
    requires f.sq != 0.0 && WholeLots(m.lots) && Whole(m.remaining)
    ensures MatchAll(m, f, mult).realized.GetOr(0.0) - m.realized.GetOr(0.0)
         == TotalGain(BlockClosed(m, f, mult), ShareGain(f, mult))
    decreases |m.lots|, m.remaining != 0.0
  {
    if m.remaining != 0.0 && Opposes(m.lots, m.remaining) {
      var r := MatchNewest(m, f, mult);
      TurnGains(m, f, mult);
      TurnTakes(m, f, mult);
      TurnCloses(m, r, Unit(Sign(m.remaining), 0.0), []);
      BlockGains(r, f, mult);
      TotalGainAdds(Copies(UnitOf(m.lots[|m.lots| - 1]), TurnClosed(m)), BlockClosed(r, f, mult), ShareGain(f, mult));
    }
  }

  lemma {:induction false} LastUnit(lots: seq<Holding>)
    requires WholeLots(lots)
    ensures |lots| == 0 ==> Expand(lots) == []
    ensures |lots| > 0 ==> |Expand(lots)| > 0 && Expand(lots)[|Expand(lots)| - 1] == UnitOf(lots[|lots| - 1])
  {
  }

  lemma {:induction false} OpenedShare(remaining: real, f: Fill, mult: real)
    requires f.sq != 0.0 && mult != 0.0 && remaining != 0.0 && Sign(remaining) == Sign(f.sq)
    ensures OpenCost(f.price, Share(f.comm, Abs(remaining), Abs(f.sq)), remaining, mult, Sign(remaining))
         == OpenedUnit(f, mult).cost
  {
    var per, d := f.comm / Abs(f.sq), Sign(f.sq) as real;
    PerShare(f.comm, Abs(remaining), Abs(f.sq));
    OpenCostRatio(d * per, Abs(remaining), mult);
    assert d * (Abs(remaining) * per) == d * per * Abs(remaining);
    assert Abs(1.0) * mult == mult;
  }

  lemma {:induction false} OpenCostRatio(x: real, n: real, mult: real)
    requires n != 0.0 && mult != 0.0
    ensures x * n / (n * mult) == x / mult
  {
    var q := x / mult;
    assert q * mult == x;
    assert q * (n * mult) == x * n;
    DivisionUnique(x * n, n * mult, q);
  }

  lemma {:induction false} ExpandOpenRest(lots: seq<Holding>, remaining: real, f: Fill, mult: real)
    requires WholeLots(lots) && Whole(remaining) && f.sq != 0.0 && mult != 0.0
    requires remaining == 0.0 || Sign(remaining) == Sign(f.sq)
    ensures WholeLots(OpenRest(lots, remaining, f, mult))
    ensures Expand(OpenRest(lots, remaining, f, mult))
         == Expand(lots) + Copies(OpenedUnit(f, mult), Units(remaining))
  {
    if remaining == 0.0 {
      assert Expand(lots) + Copies(OpenedUnit(f, mult), 0) == Expand(lots);
    } else {
      OpenedShare(remaining, f, mult);
      assert OpenRest(lots, remaining, f, mult)[..|lots|] == lots;
    }
  }

  /** The shares a fill closes, newest first. */
  function ClosedBy(lots: seq<Holding>, f: Fill, mult: real): seq<Unit> {
    BlockClosed(Matching(lots, f.sq, None), f, mult)
  }

  /**
   Block matching of whole lots refines the stack of single shares: it leaves the lots that stand
   for the same shares, closes the same shares, and realizes the sum of what these gain.
   */
  lemma {:induction false} BlockRefinesShares(lots: seq<Holding>, f: Fill, mult: real, before: seq<Unit>)
    requires WholeLots(lots) && Whole(f.sq) && f.sq != 0.0 && mult != 0.0
    ensures var a, closed := Apply(lots, f, mult), ClosedBy(lots, f, mult);
            && WholeLots(a.lots)
            && TradeShares(UnitBook(Expand(lots), before), OpenedUnit(f, mult), Units(f.sq))
            == UnitBook(Expand(a.lots), before + closed)
            && a.realized.GetOr(0.0) == TotalGain(closed, ShareGain(f, mult))
  {
    var start := Matching(lots, f.sq, None);
    var m := MatchAll(start, f, mult);
    BlockCloses(start, f, mult, OpenedUnit(f, mult), before);
    BlockGains(start, f, mult);
    ExpandOpenRest(m.lots, m.remaining, f, mult);
  }
}
