/**
 LIFO lot matching for one futures contract (ib_trader/engine/lifo_pnl.py).

 A book is a stack of signed lots, oldest first. One fill is matched against the
 newest lots as long as they are on the other side; what is left over opens a lot.
 `Book` is the mutable stack; `Apply` is the function that specifies it.
 */
module LotMatching {
  import opened Wrappers
  import opened Reals

  /** One execution: exec id, signed quantity (+bought / -sold), price, commission. */
  datatype Fill = Fill(eid: string, sq: real, price: real, comm: real)

  /** The value of one lot: signed quantity and per-unit cost. */
  datatype Holding = Holding(qty: real, cost: real)

  /** The lots left by a fill, and its realized P&L (None when it only opened). */
  datatype Applied = Applied(lots: seq<Holding>, realized: Option<real>)

  /** The state of the matching loop. */
  datatype Matching = Matching(lots: seq<Holding>, remaining: real, realized: Option<real>)

  function Sign(x: real): int {
    if x > 0.0 then 1 else if x < 0.0 then -1 else 0
  }

  /** Per-unit cost of an opened quantity, with its opening commission folded in. */
  function OpenCost(price: real, comm: real, qty: real, mult: real, direction: int): real
    requires qty != 0.0 && mult != 0.0
  {
    price + direction as real * comm / (Abs(qty) * mult)
  }

  /** The part of a fill's commission that belongs to `part` of its `total` units. */
  function Share(comm: real, part: real, total: real): real
    requires total != 0.0
  {
    comm * part / total
  }

  /** Signed money for `qty` units at `price`. */
  function Value(qty: real, price: real, mult: real): real {
    qty * price * mult
  }

  /** Gross P&L of closing `matched` units of a lot (direction 1 long, -1 short). */
  function Gain(price: real, cost: real, matched: real, mult: real, direction: real): real {
    (price - cost) * matched * mult * direction
  }

  predicate Opposes(lots: seq<Holding>, remaining: real) {
    |lots| > 0 && Sign(lots[|lots| - 1].qty) == -Sign(remaining)
  }

  /** Replace the newest lot's quantity, dropping the lot when nothing is left of it. */
  function WithNewest(lots: seq<Holding>, qty: real): seq<Holding>
    requires |lots| > 0
  {
    var older := lots[..|lots| - 1];
    if qty == 0.0 then older else older + [Holding(qty, lots[|lots| - 1].cost)]
  }

  /** Take `matched` units out of the newest lot, whose side is `direction`. */
  function TakeNewest(m: Matching, f: Fill, mult: real, matched: real, direction: real): Matching
    requires |m.lots| > 0 && f.sq != 0.0
  {
    var top := m.lots[|m.lots| - 1];
    var pnl := Gain(f.price, top.cost, matched, mult, direction) - Share(f.comm, matched, Abs(f.sq));
    Matching(WithNewest(m.lots, top.qty - direction * matched),
             m.remaining + direction * matched,
             Some(m.realized.GetOr(0.0) + pnl))
  }

  /** One turn of the matching loop. */
  function MatchNewest(m: Matching, f: Fill, mult: real): (r: Matching)
    requires m.remaining != 0.0 && Opposes(m.lots, m.remaining) && f.sq != 0.0
    ensures |r.lots| < |m.lots| || (|r.lots| == |m.lots| && r.remaining == 0.0)
  {
    var top := m.lots[|m.lots| - 1];
    TakeNewest(m, f, mult, Min(Abs(m.remaining), Abs(top.qty)), Sign(top.qty) as real)
  }

  /** Match until the fill is used up or the newest lot is on the fill's own side. */
  function MatchAll(m: Matching, f: Fill, mult: real): Matching
    requires m.remaining != 0.0 ==> f.sq != 0.0
    decreases |m.lots|, m.remaining != 0.0
  {
    if m.remaining != 0.0 && Opposes(m.lots, m.remaining)
    then MatchAll(MatchNewest(m, f, mult), f, mult)
    else m
  }

  /** What is left of a fill after matching opens a lot that carries the rest of its commission. */
  function OpenRest(lots: seq<Holding>, remaining: real, f: Fill, mult: real): seq<Holding>
    requires mult != 0.0 && (remaining != 0.0 ==> f.sq != 0.0)
  {
    if remaining == 0.0 then lots
    else
      var share := Share(f.comm, Abs(remaining), Abs(f.sq));
      lots + [Holding(remaining, OpenCost(f.price, share, remaining, mult, Sign(remaining)))]
  }

  /** Apply one fill to a stack of lots. */
  function Apply(lots: seq<Holding>, f: Fill, mult: real): Applied
    requires mult != 0.0
  {
    var m := MatchAll(Matching(lots, f.sq, None), f, mult);
    Applied(OpenRest(m.lots, m.remaining, f, mult), m.realized)
  }

  lemma {:induction false} ReplaceNewest(lots: seq<Holding>, qty: real)
    requires |lots| > 0
    ensures var n := |lots| - 1;
            WithNewest(lots, qty) == if qty == 0.0 then lots[..n] else lots[n := Holding(qty, lots[n].cost)]
  {
  }

  lemma {:induction false} TurnOfNewest(m: Matching, f: Fill, mult: real, qty: real, cost: real)
    requires m.remaining != 0.0 && Opposes(m.lots, m.remaining) && f.sq != 0.0
    requires m.lots[|m.lots| - 1] == Holding(qty, cost)
    ensures var matched, direction := Min(Abs(m.remaining), Abs(qty)), Sign(qty) as real;
            var pnl := Gain(f.price, cost, matched, mult, direction) - Share(f.comm, matched, Abs(f.sq));
            MatchNewest(m, f, mult)
            == Matching(WithNewest(m.lots, qty - direction * matched), m.remaining + direction * matched,
                        Some(m.realized.GetOr(0.0) + pnl))
  {
  }

  lemma {:induction false} OpensRest(lots: seq<Holding>, remaining: real, f: Fill, mult: real, cost: real)
    requires remaining != 0.0 && mult != 0.0 && f.sq != 0.0
    requires cost == OpenCost(f.price, Share(f.comm, Abs(remaining), Abs(f.sq)), remaining, mult, Sign(remaining))
    ensures OpenRest(lots, remaining, f, mult) == lots + [Holding(remaining, cost)]
  {
  }

  // ---- The mutable stack -------------------------------------------------

  /** An open lot. `Book.RealizeLifo` reduces the newest lot's quantity in place. */
  class Lot {
    var qty: real
    const cost: real

    constructor (qty: real, cost: real)
      ensures this.qty == qty && this.cost == cost
    {
      this.qty := qty;
      this.cost := cost;
    }
  }

  class Book {
    var lots: seq<Lot>

    ghost predicate Valid()
      reads this
    {
      forall i, j :: 0 <= i < j < |lots| ==> lots[i] != lots[j]
    }

    ghost function Contents(): (s: seq<Holding>)
      reads this, lots
      ensures |s| == |lots|
    {
      seq(|lots|, i requires 0 <= i < |lots| reads this, lots => Holding(lots[i].qty, lots[i].cost))
    }

    constructor ()
      ensures Valid() && lots == [] && Contents() == []
    {
      lots := [];
    }

    method Push(qty: real, cost: real)
      requires Valid()
      modifies this
      ensures Valid() && fresh(set l | l in lots && l !in old(lots))
      ensures Contents() == old(Contents()) + [Holding(qty, cost)]
    {
      var lot := new Lot(qty, cost);
      lots := lots + [lot];
    }

    /** Reduce the newest lot in place, popping it at zero. */
    method SetNewest(qty: real)
      requires Valid() && |lots| > 0
      modifies this, lots[|lots| - 1]
      ensures Valid() && lots <= old(lots)
      ensures Contents() == WithNewest(old(Contents()), qty)
    {
      var top := lots[|lots| - 1];
      ghost var was := Contents();
      ReplaceNewest(was, qty);
      top.qty := qty;
      assert Contents() == was[|lots| - 1 := Holding(qty, top.cost)];
      if qty == 0.0 {
        lots := lots[..|lots| - 1];
        assert Contents() == was[..|lots|];
      }
    }

    /** One turn of the loop in `RealizeLifo`. */
    method ReduceNewest(f: Fill, mult: real, remaining: real, realized: Option<real>)
      returns (remaining': real, realized': Option<real>)
      requires Valid() && f.sq != 0.0 && remaining != 0.0 && Opposes(Contents(), remaining)
      modifies this, lots
      ensures Valid() && lots <= old(lots)
      ensures Matching(Contents(), remaining', realized')
           == MatchNewest(Matching(old(Contents()), remaining, realized), f, mult)
    {
      var top := lots[|lots| - 1];
      var matched := Min(Abs(remaining), Abs(top.qty));
      var direction := Sign(top.qty) as real;
      var commShare := Share(f.comm, matched, Abs(f.sq));
      var pnl := Gain(f.price, top.cost, matched, mult, direction) - commShare;
      realized' := Some(realized.GetOr(0.0) + pnl);
      remaining' := remaining + direction * matched;
      TurnOfNewest(Matching(Contents(), remaining, realized), f, mult, top.qty, top.cost);
      SetNewest(top.qty - direction * matched);
    }

    /** Apply one fill, newest lot first; the result is its realized P&L. */
    method RealizeLifo(f: Fill, mult: real) returns (realized: Option<real>)
      requires Valid() && mult != 0.0
      modifies this, lots
      ensures Valid() && fresh(set l | l in lots && l !in old(lots))
      ensures Applied(Contents(), realized) == Apply(old(Contents()), f, mult)
    {
      var remaining := f.sq;
      realized := None;
      ghost var start := Matching(Contents(), remaining, None);
      while remaining != 0.0 && |lots| > 0 && Sign(lots[|lots| - 1].qty) == -Sign(remaining)
        invariant Valid() && lots <= old(lots)
        invariant remaining != 0.0 ==> f.sq != 0.0
        invariant MatchAll(Matching(Contents(), remaining, realized), f, mult) == MatchAll(start, f, mult)
        decreases |lots|, remaining != 0.0
      {
        remaining, realized := ReduceNewest(f, mult, remaining, realized);
      }
      assert MatchAll(start, f, mult) == Matching(Contents(), remaining, realized);
      if remaining != 0.0 {
        var commShare := Share(f.comm, Abs(remaining), Abs(f.sq));
        var cost := OpenCost(f.price, commShare, remaining, mult, Sign(remaining));
        OpensRest(Contents(), remaining, f, mult, cost);
        Push(remaining, cost);
      }
    }
  }
}
