/** Prices on a contract's tick grid and the reprice ladder (ib_trader/engine/pricing.py). */
module Pricing {
  import opened Reals

  datatype Priced = Ok(price: real) | Err(message: string)

  datatype Side = Buy | Sell

  /** The nearest integer, a half going to the even one. */
  function Round(x: real): int {
    var floor := x.Floor;
    var part := x - floor as real;
    if part < 0.5 || (part == 0.5 && floor % 2 == 0) then floor else floor + 1
  }

  /** The grid point `k` ticks from zero. */
  function Grid(k: int, tick: real): real {
    k as real * tick
  }

  function Ticks(value: real, tick: real): real
    requires tick > 0.0
  {
    value / tick
  }

  function Snapped(value: real, tick: real): real
    requires tick > 0.0
  {
    Grid(Round(Ticks(value, tick)), tick)
  }

  function Snap(value: real, tick: real): Priced {
    if tick <= 0.0 then Err("tick_size must be positive") else Ok(Snapped(value, tick))
  }

  function CalcMid(bid: real, ask: real, tick: real): Priced {
    Snap((bid + ask) / 2.0, tick)
  }

  /** The point `step` parts of `total` on the way from `from` to `to`. */
  function Between(from: real, to: real, step: int, total: int): real
    requires total != 0
  {
    from + step as real / total as real * (to - from)
  }

  function CalcStepPrice(bid: real, ask: real, step: int, total: int, side: Side, tick: real): Priced {
    if total == 0 then Err("total_steps must be greater than zero")
    else
      match CalcMid(bid, ask, tick)
      case Err(e) => Err(e)
      case Ok(mid) => Snap(Between(mid, if side == Buy then ask else bid, step, total), tick)
  }

  /** Profit per unit of price. */
  function PerUnit(profit: real, qty: real, multiplier: real): real
    requires qty * multiplier != 0.0
  {
    profit / (qty * multiplier)
  }

  function CalcProfitTakerPrice(fill: real, qty: real, profit: real, tick: real, multiplier: real, side: Side): Priced {
    if qty == 0.0 then Err("qty_filled must be greater than zero")
    else if multiplier == 0.0 then Err("multiplier must be greater than zero")
    else
      NonZeroProduct(qty, multiplier);
      var perUnit := PerUnit(profit, qty, multiplier);
      Snap(if side == Buy then fill + perUnit else fill - perUnit, tick)
  }

  // ---- Rounding -------------------------------------------------------------------

  lemma {:induction false} NonZeroProduct(x: real, y: real)
    requires x != 0.0 && y != 0.0
    ensures x * y != 0.0
  {
  }

  lemma {:induction false} RoundIsNear(x: real)
    ensures -0.5 <= Round(x) as real - x <= 0.5
  {
  }

  lemma {:induction false} RoundKeepsOrder(x: real, y: real)
    requires x <= y
    ensures Round(x) <= Round(y)
  {
    assert x.Floor <= y.Floor;
  }

  lemma {:induction false} RoundOfInt(k: int)
    ensures Round(k as real) == k
  {
  }

  lemma {:induction false} TicksOfGrid(k: int, tick: real)
    requires tick > 0.0
    ensures Ticks(Grid(k, tick), tick) == k as real
  {
  }

  lemma {:induction false} TicksKeepOrder(x: real, y: real, tick: real)
    requires tick > 0.0 && x <= y
    ensures Ticks(x, tick) <= Ticks(y, tick)
  {
    var d := Ticks(y - x, tick);
    assert d * tick == y - x;
    assert d >= 0.0;
    assert Ticks(y, tick) == Ticks(x, tick) + d;
  }

  lemma {:induction false} GridKeepsOrder(j: int, k: int, tick: real)
    requires tick > 0.0 && j <= k
    ensures Grid(j, tick) <= Grid(k, tick)
  {
  }

  lemma {:induction false} SnapKeepsOrder(x: real, y: real, tick: real)
    requires tick > 0.0 && x <= y
    ensures Snapped(x, tick) <= Snapped(y, tick)
  {
    TicksKeepOrder(x, y, tick);
    RoundKeepsOrder(Ticks(x, tick), Ticks(y, tick));
    GridKeepsOrder(Round(Ticks(x, tick)), Round(Ticks(y, tick)), tick);
  }

  lemma {:induction false} SnapOfGrid(k: int, tick: real)
    requires tick > 0.0
    ensures Snapped(Grid(k, tick), tick) == Grid(k, tick)
  {
    TicksOfGrid(k, tick);
    RoundOfInt(k);
  }

  lemma {:induction false} Scale(x: real, lo: real, hi: real, tick: real)
    requires tick > 0.0 && lo <= x <= hi
    ensures lo * tick <= x * tick <= hi * tick
  {
  }

  /** A snapped price is at most half a tick away. */
  lemma {:induction false} SnapIsNear(value: real, tick: real)
    requires tick > 0.0
    ensures -(tick / 2.0) <= Snapped(value, tick) - value <= tick / 2.0
  {
    RoundIsNear(Ticks(value, tick));
    TicksTimesTick(value, tick);
    Miss(Round(Ticks(value, tick)), Ticks(value, tick), value, tick);
  }

  lemma {:induction false} TicksTimesTick(value: real, tick: real)
    requires tick > 0.0
    ensures Ticks(value, tick) * tick == value
  {
  }

  lemma {:induction false} Miss(k: int, x: real, value: real, tick: real)
    requires tick > 0.0 && -0.5 <= k as real - x <= 0.5 && value == x * tick
    ensures -(tick / 2.0) <= Grid(k, tick) - value <= tick / 2.0
  {
    Scale(k as real - x, -0.5, 0.5, tick);
    assert (k as real - x) * tick == k as real * tick - x * tick;
  }

  /** No whole number is nearer than the rounded one, and one that is as near is odd while the rounded one is even. */
  lemma {:induction false} RoundIsNearest(x: real, k: int)
    ensures var miss, other := Round(x) as real - x, k as real - x;
            && miss * miss <= other * other
            && (miss * miss == other * other && k != Round(x) ==> Round(x) % 2 == 0 && k % 2 == 1)
  {
    var r := Round(x);
    var miss, other := r as real - x, k as real - x;
    RoundIsNear(x);
    if k > r {
      assert other >= 0.5 && other >= miss && other >= -miss;
      Squares(miss, other);
    } else if k < r {
      assert other <= -0.5 && -other >= miss && -other >= -miss;
      Squares(miss, -other);
      assert other * other == (-other) * (-other);
    }
  }

  lemma {:induction false} Squares(x: real, y: real)
    requires y >= x && y >= -x && y > 0.0
    ensures x * x <= y * y
    ensures x * x == y * y ==> x == y || x == -y
  {
    assert (y - x) * (y + x) == y * y - x * x;
  }

  // ---- The ladder -------------------------------------------------------------------

  lemma {:induction false} FractionKeepsOrder(step: int, next: int, total: int)
    requires 0 <= step <= next <= total && total > 0
    ensures 0.0 <= step as real / total as real <= next as real / total as real <= 1.0
  {
    TicksKeepOrder(0.0, step as real, total as real);
    TicksKeepOrder(step as real, next as real, total as real);
    TicksKeepOrder(next as real, total as real, total as real);
    assert Ticks(total as real, total as real) == 1.0 && Ticks(0.0, total as real) == 0.0;
  }

  /** Walking up from `lo` to `hi`, or down from `hi` to `lo`. */
  lemma {:induction false} WalkKeepsOrder(from: real, to: real, step: int, next: int, total: int)
    requires 0 <= step <= next <= total && total > 0
    ensures from <= to ==> from <= Between(from, to, step, total) <= Between(from, to, next, total) <= to
    ensures to <= from ==> to <= Between(from, to, next, total) <= Between(from, to, step, total) <= from
  {
    var a, b, d := step as real / total as real, next as real / total as real, to - from;
    FractionKeepsOrder(step, next, total);
    if d >= 0.0 {
      Products(a, b, d);
    } else {
      Products(a, b, -d);
      assert a * d == -(a * -d) && b * d == -(b * -d);
    }
  }

  lemma {:induction false} Products(a: real, b: real, d: real)
    requires 0.0 <= a <= b <= 1.0 && d >= 0.0
    ensures 0.0 <= a * d <= b * d <= d
  {
  }

  lemma {:induction false} WalkEnds(from: real, to: real, total: int)
    requires total > 0
    ensures Between(from, to, total, total) == to
  {
    assert total as real / total as real == 1.0;
  }

  lemma {:induction false} MidBetween(low: int, high: int, tick: real)
    requires tick > 0.0 && low <= high
    ensures var bid, ask := Grid(low, tick), Grid(high, tick);
            bid <= Snapped((bid + ask) / 2.0, tick) <= ask
  {
    var bid, ask := Grid(low, tick), Grid(high, tick);
    GridKeepsOrder(low, high, tick);
    SnapKeepsOrder(bid, (bid + ask) / 2.0, tick);
    SnapKeepsOrder((bid + ask) / 2.0, ask, tick);
    SnapOfGrid(low, tick);
    SnapOfGrid(high, tick);
  }

  /** Snapping what lies between two grid points. */
  lemma {:induction false} SnapBetween(from: int, to: int, x: real, y: real, tick: real)
    requires tick > 0.0 && Grid(from, tick) <= x <= y <= Grid(to, tick)
    ensures Grid(from, tick) <= Snapped(x, tick) <= Snapped(y, tick) <= Grid(to, tick)
  {
    SnapKeepsOrder(Grid(from, tick), x, tick);
    SnapKeepsOrder(x, y, tick);
    SnapKeepsOrder(y, Grid(to, tick), tick);
    SnapOfGrid(from, tick);
    SnapOfGrid(to, tick);
  }

  /**
   The ladder: for a bid and an ask on the grid, every step is priced on the grid between the snapped mid
   and the far side, no step goes back, and the last step is exactly the far side.
   */
  lemma {:induction false} LadderWalks(low: int, high: int, step: int, next: int, total: int, side: Side, tick: real)
    requires tick > 0.0 && low <= high && 0 <= step <= next <= total && total > 0
    ensures var bid, ask := Grid(low, tick), Grid(high, tick);
            var p := CalcStepPrice(bid, ask, step, total, side, tick);
            var q := CalcStepPrice(bid, ask, next, total, side, tick);
            var mid := Snapped((bid + ask) / 2.0, tick);
            && p.Ok? && q.Ok?
            && (exists k: int :: p.price == Grid(k, tick))
            && (if side == Buy then bid <= mid <= p.price <= q.price <= ask
                else bid <= q.price <= p.price <= mid <= ask)
            && CalcStepPrice(bid, ask, total, total, side, tick) == Ok(if side == Buy then ask else bid)
  {
    var bid, ask := Grid(low, tick), Grid(high, tick);
    var middle := Round(Ticks((bid + ask) / 2.0, tick));
    var mid, far, end := Grid(middle, tick), if side == Buy then ask else bid, if side == Buy then high else low;
    MidBetween(low, high, tick);
    var x, y := Between(mid, far, step, total), Between(mid, far, next, total);
    WalkKeepsOrder(mid, far, step, next, total);
    if side == Buy {
      SnapBetween(middle, end, x, y, tick);
    } else {
      SnapBetween(end, middle, y, x, tick);
    }
    WalkEnds(mid, far, total);
    SnapOfGrid(end, tick);
    assert CalcStepPrice(bid, ask, step, total, side, tick).price == Grid(Round(Ticks(x, tick)), tick);
  }

  /** The price is a whole number of ticks, and at most half a tick from `x`. */
  predicate OnGridNear(p: real, x: real, tick: real)
    requires tick > 0.0
  {
    (p / tick).Floor as real == p / tick && x - 0.5 * tick <= p <= x + 0.5 * tick
  }

  lemma {:induction false} SnapsNear(x: real, tick: real)
    requires tick > 0.0
    ensures OnGridNear(Snapped(x, tick), x, tick)
  {
    SnapIsNear(x, tick);
    TicksOfGrid(Round(Ticks(x, tick)), tick);
  }

  /** The point is `step` of `total` equal parts on the way. */
  predicate IsPart(exact: real, from: real, to: real, step: int, total: int) {
    total as real * (exact - from) == step as real * (to - from)
  }

  lemma {:induction false} BetweenIsEven(from: real, to: real, step: int, total: int)
    requires total != 0
    ensures IsPart(Between(from, to, step, total), from, to, step, total)
  {
    var part := step as real / total as real;
    assert part * total as real == step as real;
    assert total as real * (part * (to - from)) == part * total as real * (to - from);
  }

  /**
   For any quotes and any number of steps: the steps go in equal parts from the middle of the quotes, snapped, to
   the far side, each snapped to the grid; only a total of zero steps or a tick that is not positive is refused.
   */
  lemma {:induction false} StepsAreEven(bid: real, ask: real, step: int, total: int, side: Side, tick: real)
    returns (mid: real, exact: real)
    ensures CalcStepPrice(bid, ask, step, total, side, tick).Ok? <==> total != 0 && tick > 0.0
    ensures total != 0 && tick > 0.0 ==>
              && OnGridNear(mid, (bid + ask) / 2.0, tick)
              && IsPart(exact, mid, match side case Buy => ask case Sell => bid, step, total)
              && OnGridNear(CalcStepPrice(bid, ask, step, total, side, tick).price, exact, tick)
  {
    mid, exact := 0.0, 0.0;
    if total != 0 && tick > 0.0 {
      var far := if side == Buy then ask else bid;
      mid := Snapped((bid + ask) / 2.0, tick);
      exact := Between(mid, far, step, total);
      SnapsNear((bid + ask) / 2.0, tick);
      SnapsNear(exact, tick);
      BetweenIsEven(mid, far, step, total);
    }
  }

  // ---- Profit takers ------------------------------------------------------------------

  /** What closing at `price` earns on `units` of quantity times multiplier. */
  function Earned(fill: real, price: real, units: real, side: Side): real {
    if side == Buy then (price - fill) * units else (fill - price) * units
  }

  lemma {:induction false} ScaleAbs(x: real, units: real, bound: real)
    requires -bound <= x <= bound
    ensures Abs(x * units) <= bound * Abs(units)
  {
    if units >= 0.0 {
      assert -bound * units <= x * units <= bound * units;
    } else {
      assert -bound * -units <= x * -units <= bound * -units;
      assert x * -units == -(x * units);
    }
  }

  /** Closing at the profit taker's price misses the profit asked for by at most half a tick on every unit. */
  lemma {:induction false} ProfitTakerMissesLittle(fill: real, qty: real, profit: real, tick: real,
      multiplier: real, side: Side)
    requires tick > 0.0
    ensures var p := CalcProfitTakerPrice(fill, qty, profit, tick, multiplier, side);
            && (p.Ok? <==> qty != 0.0 && multiplier != 0.0)
            && (p.Ok? ==>
                  var missed := Earned(fill, p.price, qty * multiplier, side) - profit;
                  Abs(missed) <= tick / 2.0 * Abs(qty * multiplier))
  {
    if qty != 0.0 && multiplier != 0.0 {
      NonZeroProduct(qty, multiplier);
      var units, per := qty * multiplier, PerUnit(profit, qty, multiplier);
      assert per * units == profit;
      var exact := if side == Buy then fill + per else fill - per;
      var price := Snapped(exact, tick);
      SnapIsNear(exact, tick);
      var miss := if side == Buy then price - exact else exact - price;
      ScaleAbs(miss, units, tick / 2.0);
      MissIs(fill, price, per, units, side);
    }
  }

  lemma {:induction false} MissIs(fill: real, price: real, per: real, units: real, side: Side)
    ensures Earned(fill, price, units, side) - per * units
         == (if side == Buy then price - (fill + per) else (fill - per) - price) * units
  {
  }
}
