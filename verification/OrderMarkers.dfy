/**
 The chart markers stated on the executions alone (ib_trader/engine/exec_markers.py): which executions make up one
 order, and what the order's marker says about them.
 */
module OrderMarkers {
  import opened Wrappers
  import opened Tails
  import opened ExecMarkers

  predicate Usable(ex: Exec) {
    ex.symbol != "" && ex.time.Some? && ex.price.Some? && ex.shares.Some? && ex.shares.value > 0.0
  }

  /** Executions of one contract with one order id, or without an order id the same execution id. */
  predicate SameOrder(a: Exec, b: Exec) {
    a.symbol == b.symbol && a.perm == b.perm && (a.perm == 0 ==> a.id == b.id)
  }

  /** The usable executions of the order that `ex` belongs to. */
  function OfOrder(executions: seq<Exec>, ex: Exec): seq<Exec> {
    if |executions| == 0 then []
    else
      var before, last := OfOrder(executions[..|executions| - 1], ex), executions[|executions| - 1];
      if Usable(last) && SameOrder(last, ex) then before + [last] else before
  }

  /** The first usable execution of every order. */
  function Firsts(executions: seq<Exec>): seq<Exec> {
    if |executions| == 0 then []
    else
      var before, last := Firsts(executions[..|executions| - 1]), executions[|executions| - 1];
      if Usable(last) && |OfOrder(executions[..|executions| - 1], last)| == 0 then before + [last] else before
  }

  function OfContract(executions: seq<Exec>, sym: string): seq<Exec> {
    if |executions| == 0 then []
    else
      var before, last := OfContract(executions[..|executions| - 1], sym), executions[|executions| - 1];
      if last.symbol == sym then before + [last] else before
  }

  function Shares(executions: seq<Exec>): real {
    if |executions| == 0 then 0.0
    else Shares(executions[..|executions| - 1]) + executions[|executions| - 1].shares.GetOr(0.0)
  }

  /** Shares times price. */
  function Paid(ex: Exec): real {
    ex.price.GetOr(0.0) * ex.shares.GetOr(0.0)
  }

  function Turnover(executions: seq<Exec>): real {
    if |executions| == 0 then 0.0
    else Turnover(executions[..|executions| - 1]) + Paid(executions[|executions| - 1])
  }

  /** The time of an execution; one more than two minutes in the future is off by the host's offset. */
  function Corrected(ex: Exec, now: int, offset: int): int {
    var t := ex.time.GetOr(0);
    if t > now + 120_000_000 then t + offset else t
  }

  /**
   A marker for the executions: their quantity, their average price weighted by it, the side of the first,
   and the earliest corrected time.
   */
  ghost predicate Describes(m: Marker, own: seq<Exec>, now: int, offset: int) {
    && |own| > 0 && m.qty == Shares(own) && m.qty * m.price == Turnover(own)
    && (m.side == B <==> own[0].side == "BOT" || own[0].side == "BUY" || own[0].side == "B")
    && (forall i :: 0 <= i < |own| ==> m.time <= Corrected(own[i], now, offset))
    && (exists i :: 0 <= i < |own| && m.time == Corrected(own[i], now, offset))
  }

  // ---- Orders and keys -------------------------------------------------------------------

  lemma {:induction false} UsableIsFill(ex: Exec, now: int, offset: int)
    ensures Usable(ex) <==> ToFill(ex, now, offset).Some?
    ensures Usable(ex) ==>
              var f := ToFill(ex, now, offset).value;
              && f.key.sym == ex.symbol && f.time == Corrected(ex, now, offset)
              && f.qty == ex.shares.value && f.price == ex.price.value
              && (f.side == B <==> ex.side == "BOT" || ex.side == "BUY" || ex.side == "B")
  {
  }

  lemma {:induction false} SameKeyIff(a: Exec, b: Exec, now: int, offset: int)
    requires Usable(a) && Usable(b)
    ensures ToFill(a, now, offset).value.key == ToFill(b, now, offset).value.key <==> SameOrder(a, b)
  {
  }

  /** The fills of an order are those that have its key. */
  lemma {:induction false} FillsOfOrder(executions: seq<Exec>, ex: Exec, now: int, offset: int, key: Key)
    requires Usable(ex) && key == ToFill(ex, now, offset).value.key
    ensures OfKey(Fills(executions, now, offset), key) == Fills(OfOrder(executions, ex), now, offset)
  {
    if |executions| > 0 {
      var n := |executions| - 1;
      var last, before, own := executions[n], Fills(executions[..n], now, offset), OfOrder(executions[..n], ex);
      FillsOfOrder(executions[..n], ex, now, offset, key);
      UsableIsFill(last, now, offset);
      if Usable(last) {
        SameKeyIff(last, ex, now, offset);
        assert (before + [ToFill(last, now, offset).value])[..|before|] == before;
        assert (own + [last])[..|own|] == own;
      }
    }
  }

  lemma {:induction false} FillsLast(own: seq<Exec>, now: int, offset: int, f: Fill)
    requires |own| > 0 && ToFill(own[|own| - 1], now, offset) == Some(f)
    ensures Fills(own, now, offset) == Fills(own[..|own| - 1], now, offset) + [f]
  {
  }

  lemma {:induction false} TotalsNext(fills: seq<Fill>, f: Fill)
    ensures TotalQty(fills + [f]) == TotalQty(fills) + f.qty
    ensures TotalNotional(fills + [f]) == TotalNotional(fills) + Notional(f.price, f.qty)
  {
    assert (fills + [f])[..|fills|] == fills;
  }

  /** All of these executions are usable, so each has its fill. */
  lemma {:induction false} FillsAt(own: seq<Exec>, now: int, offset: int)
    requires forall i :: 0 <= i < |own| ==> Usable(own[i])
    ensures var fills := Fills(own, now, offset);
            && |fills| == |own|
            && (forall i :: 0 <= i < |own| ==> ToFill(own[i], now, offset) == Some(fills[i]))
  {
    if |own| > 0 {
      var n := |own| - 1;
      FillsAt(own[..n], now, offset);
      UsableIsFill(own[n], now, offset);
      FillsLast(own, now, offset, ToFill(own[n], now, offset).value);
      assert forall i :: 0 <= i < n ==> own[..n][i] == own[i];
    }
  }

  lemma {:induction false} FillPays(ex: Exec, now: int, offset: int, f: Fill)
    requires ToFill(ex, now, offset) == Some(f)
    ensures f.qty == ex.shares.GetOr(0.0) && Notional(f.price, f.qty) == Paid(ex)
  {
  }

  lemma {:induction false} FillTotals(own: seq<Exec>, now: int, offset: int)
    requires forall i :: 0 <= i < |own| ==> Usable(own[i])
    ensures TotalQty(Fills(own, now, offset)) == Shares(own)
    ensures TotalNotional(Fills(own, now, offset)) == Turnover(own)
  {
    if |own| > 0 {
      var n := |own| - 1;
      var f := ToFill(own[n], now, offset);
      FillTotals(own[..n], now, offset);
      UsableIsFill(own[n], now, offset);
      FillsLast(own, now, offset, f.value);
      FillPays(own[n], now, offset, f.value);
      TotalsNext(Fills(own[..n], now, offset), f.value);
    }
  }

  lemma {:induction false} OrderIsUsable(executions: seq<Exec>, ex: Exec)
    ensures forall i :: 0 <= i < |OfOrder(executions, ex)| ==>
              Usable(OfOrder(executions, ex)[i]) && SameOrder(OfOrder(executions, ex)[i], ex)
  {
    if |executions| > 0 {
      OrderIsUsable(executions[..|executions| - 1], ex);
    }
  }

  lemma {:induction false} MarkerPays(g: Group)
    requires g.qty > 0.0
    ensures MarkerOf(g).qty * MarkerOf(g).price == g.notional
  {
    AverageTimesQty(g.notional, g.qty);
  }

  lemma {:induction false} FillTimes(own: seq<Exec>, now: int, offset: int, time: int)
    requires (forall i :: 0 <= i < |own| ==> Usable(own[i])) && Earliest(time, Fills(own, now, offset))
    ensures forall i :: 0 <= i < |own| ==> time <= Corrected(own[i], now, offset)
    ensures exists i :: 0 <= i < |own| && time == Corrected(own[i], now, offset)
  {
    var fills := Fills(own, now, offset);
    FillsAt(own, now, offset);
    forall i | 0 <= i < |own| ensures fills[i].time == Corrected(own[i], now, offset) {
      UsableIsFill(own[i], now, offset);
    }
    var i :| 0 <= i < |fills| && fills[i].time == time;
    assert time == Corrected(own[i], now, offset);
  }

  /** The marker of a group that sums up an order's fills describes the order's executions. */
  lemma {:induction false} GroupDescribes(g: Group, own: seq<Exec>, now: int, offset: int)
    requires (forall i :: 0 <= i < |own| ==> Usable(own[i])) && SumsUp(g, Fills(own, now, offset))
    ensures Describes(MarkerOf(g), own, now, offset)
  {
    FillsAt(own, now, offset);
    FillTotals(own, now, offset);
    FillTimes(own, now, offset, g.time);
    FillsArePositive(own, now, offset);
    QtyPositive(Fills(own, now, offset));
    MarkerPays(g);
    UsableIsFill(own[0], now, offset);
  }

  // ---- One group per order, in order of appearance ------------------------------------------

  /** The keys are those of the orders' first executions, one by one. */
  ghost predicate Listed(order: seq<Key>, firsts: seq<Exec>, now: int, offset: int) {
    && |order| == |firsts|
    && forall i :: 0 <= i < |order| ==>
         Usable(firsts[i]) && order[i] == ToFill(firsts[i], now, offset).value.key
  }

  lemma {:induction false} KeysAreFirsts(executions: seq<Exec>, now: int, offset: int)
    ensures Listed(Grouped(Fills(executions, now, offset)).order, Firsts(executions), now, offset)
  {
    if |executions| > 0 {
      var n := |executions| - 1;
      var last, before := executions[n], Fills(executions[..n], now, offset);
      KeysAreFirsts(executions[..n], now, offset);
      UsableIsFill(last, now, offset);
      GroupedNext(executions, now, offset, n);
      assert executions[..n + 1] == executions;
      if Usable(last) {
        var key := ToFill(last, now, offset).value.key;
        GroupsSumUp(before, key);
        FillsOfOrder(executions[..n], last, now, offset, key);
        OrderIsUsable(executions[..n], last);
        FillsAt(OfOrder(executions[..n], last), now, offset);
      }
    }
  }

  /** Every order of the contract has one marker, in order of first appearance, that describes its executions. */
  ghost predicate OnePerOrder(ms: seq<Marker>, firsts: seq<Exec>, executions: seq<Exec>, now: int, offset: int) {
    && |ms| == |firsts|
    && forall k :: 0 <= k < |ms| ==> Describes(ms[k], OfOrder(executions, firsts[k]), now, offset)
  }

  lemma {:induction false} FirstDescribed(executions: seq<Exec>, first: Exec, now: int, offset: int, key: Key)
    requires Usable(first) && key == ToFill(first, now, offset).value.key
    requires key in Grouped(Fills(executions, now, offset)).at
    ensures var g := Grouped(Fills(executions, now, offset)).at[key];
            Describes(MarkerOf(g), OfOrder(executions, first), now, offset)
  {
    var fills := Fills(executions, now, offset);
    GroupsSumUp(fills, key);
    FillsOfOrder(executions, first, now, offset, key);
    OrderIsUsable(executions, first);
    GroupDescribes(Grouped(fills).at[key], OfOrder(executions, first), now, offset);
  }

  lemma {:induction false} MarkersDescribe(order: seq<Key>, firsts: seq<Exec>, at: map<Key, Group>,
                                           executions: seq<Exec>, now: int, offset: int, sym: string)
    requires Listed(order, firsts, now, offset) && at == Grouped(Fills(executions, now, offset)).at
    requires forall k :: k in order ==> k in at
    ensures OnePerOrder(MarkersOf(order, at, sym), OfContract(firsts, sym), executions, now, offset)
  {
    if |order| > 0 {
      var n := |order| - 1;
      var ms, own := MarkersOf(order[..n], at, sym), OfContract(firsts[..n], sym);
      MarkersDescribe(order[..n], firsts[..n], at, executions, now, offset, sym);
      UsableIsFill(firsts[n], now, offset);
      if firsts[n].symbol == sym {
        FirstDescribed(executions, firsts[n], now, offset, order[n]);
        OneMoreDescribed(ms, own, MarkerOf(at[order[n]]), firsts[n], executions, now, offset);
      }
    }
  }

  lemma {:induction false} OneMoreDescribed(ms: seq<Marker>, firsts: seq<Exec>, m: Marker, first: Exec,
                                            executions: seq<Exec>, now: int, offset: int)
    requires OnePerOrder(ms, firsts, executions, now, offset)
    requires Describes(m, OfOrder(executions, first), now, offset)
    ensures OnePerOrder(ms + [m], firsts + [first], executions, now, offset)
  {
  }

  /**
   The markers of a contract, from the executions: before the cap one for every order, each describing exactly
   the order's executions; and the result is the newest 300 of them in order of time.
   */
  lemma {:induction false} OneMarkerPerOrder(executions: seq<Exec>, now: int, offset: int, sym: string)
    ensures var g := Grouped(Fills(executions, now, offset));
            && (forall k :: k in g.order ==> k in g.at)
            && var ms := MarkersOf(g.order, g.at, sym);
               && OnePerOrder(ms, OfContract(Firsts(executions), sym), executions, now, offset)
               && (sym in MarkersBySymbol(g) <==> |ms| > 0)
               && (sym in MarkersBySymbol(g) ==> |MarkersBySymbol(g)[sym]| == if |ms| <= 300 then |ms| else 300)
  {
    var fills := Fills(executions, now, offset);
    var g := Grouped(fills);
    GroupedKeys(fills);
    KeysAreFirsts(executions, now, offset);
    MarkersDescribe(g.order, Firsts(executions), g.at, executions, now, offset, sym);
    CapKeepsNewest(fills, sym);
    SomeMarker(g.order, g.at, sym);
    SymbolsCovered(fills, sym);
  }

  lemma {:induction false} SomeMarker(order: seq<Key>, at: map<Key, Group>, sym: string)
    requires forall k :: k in order ==> k in at
    ensures |MarkersOf(order, at, sym)| > 0 <==> exists k :: k in order && k.sym == sym
  {
    if |order| > 0 {
      var n := |order| - 1;
      SomeMarker(order[..n], at, sym);
      assert order == order[..n] + [order[n]];
    }
  }

  // ---- Which executions share a marker --------------------------------------------------------

  lemma {:induction false} InOrderIff(executions: seq<Exec>, a: Exec, first: Exec)
    requires a in executions && Usable(a)
    ensures a in OfOrder(executions, first) <==> SameOrder(a, first)
  {
    OrderIsUsable(executions, first);
    if SameOrder(a, first) {
      InOwnOrder(executions, a, first);
    }
  }

  lemma {:induction false} InOwnOrder(executions: seq<Exec>, a: Exec, first: Exec)
    requires a in executions && Usable(a) && SameOrder(a, first)
    ensures a in OfOrder(executions, first)
  {
    var n := |executions| - 1;
    assert executions == executions[..n] + [executions[n]];
    if a != executions[n] {
      InOwnOrder(executions[..n], a, first);
    }
  }

  lemma {:induction false} HasFirst(executions: seq<Exec>, a: Exec)
    requires a in executions && Usable(a)
    ensures exists k :: 0 <= k < |Firsts(executions)| && SameOrder(a, Firsts(executions)[k])
  {
    var n := |executions| - 1;
    var before, last := Firsts(executions[..n]), executions[n];
    assert executions == executions[..n] + [last];
    if a in executions[..n] {
      HasFirst(executions[..n], a);
      var k :| 0 <= k < |before| && SameOrder(a, before[k]);
      assert Firsts(executions)[k] == before[k];
    } else if |OfOrder(executions[..n], last)| == 0 {
      assert Firsts(executions)[|before|] == last;
    } else {
      var b := OfOrder(executions[..n], last)[0];
      OrderIsUsable(executions[..n], last);
      OrderIsPart(executions[..n], last);
      HasFirst(executions[..n], b);
      var k :| 0 <= k < |before| && SameOrder(b, before[k]);
      assert SameOrder(a, before[k]) && Firsts(executions)[k] == before[k];
    }
  }

  lemma {:induction false} OrderIsPart(executions: seq<Exec>, ex: Exec)
    ensures forall x :: x in OfOrder(executions, ex) ==> x in executions
  {
    if |executions| > 0 {
      OrderIsPart(executions[..|executions| - 1], ex);
    }
  }

  /** Two usable executions are described by one marker exactly when they are of one order. */
  lemma {:induction false} OneMarkerIff(executions: seq<Exec>, a: Exec, b: Exec)
    requires a in executions && b in executions && Usable(a) && Usable(b)
    ensures var firsts := Firsts(executions);
            (exists k :: 0 <= k < |firsts|
                         && a in OfOrder(executions, firsts[k]) && b in OfOrder(executions, firsts[k]))
            <==> a.symbol == b.symbol && if a.perm != 0 || b.perm != 0 then a.perm == b.perm else a.id == b.id
  {
    var firsts := Firsts(executions);
    forall k | 0 <= k < |firsts|
      ensures a in OfOrder(executions, firsts[k]) <==> SameOrder(a, firsts[k])
      ensures b in OfOrder(executions, firsts[k]) <==> SameOrder(b, firsts[k])
    {
      InOrderIff(executions, a, firsts[k]);
      InOrderIff(executions, b, firsts[k]);
    }
    HasFirst(executions, a);
    var k :| 0 <= k < |firsts| && SameOrder(a, firsts[k]);
    assert SameOrder(a, b) ==> SameOrder(b, firsts[k]);
  }
}
