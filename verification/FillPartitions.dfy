/**
 The broker may report any fill of any sequence in any parts, whole or not: walks realize the same in all and
 leave lots that differ only in how neighbours of one cost are cut (ib_trader/engine/lifo_pnl.py,
 realize_lifo and its loop).
 */
module FillPartitions {
  import opened Wrappers
  import opened Reals
  import opened LotMatching
  import opened LotProperties
  import opened SeedSolver
  import opened ShareStack
  import opened JoinedLots

  predicate IsPart(f: Fill, part: Fill)
    requires f.sq != 0.0
  {
    Sign(part.sq) == Sign(f.sq) && part.price == f.price && part.comm == Share(f.comm, Abs(part.sq), Abs(f.sq))
  }

  function NetOf(fills: seq<Fill>): real {
    if |fills| == 0 then 0.0 else fills[0].sq + NetOf(fills[1..])
  }

  function Flatten(parts: seq<seq<Fill>>): seq<Fill> {
    if |parts| == 0 then [] else parts[0] + Flatten(parts[1..])
  }

  /** The parts add up to the fill, at its price, each with its share of the commission. */
  ghost predicate Parts(f: Fill, parts: seq<Fill>) {
    && f.sq != 0.0 && |parts| > 0 && NetOf(parts) == f.sq
    && forall i :: 0 <= i < |parts| ==> IsPart(f, parts[i])
  }

  // ---- One fill ------------------------------------------------------------------

  lemma {:induction false} PartTerms(f: Fill, part: Fill, mult: real)
    requires f.sq != 0.0 && IsPart(f, part)
    ensures part.sq != 0.0 && TermsOf(part, mult) == TermsOf(f, mult)
  {
    PerShare(f.comm, Abs(part.sq), Abs(f.sq));
    DivisionUnique(part.comm, Abs(part.sq), f.comm / Abs(f.sq));
  }

  /** The fill trades at these terms, on side `s`. */
  predicate At(part: Fill, mult: real, t: Terms, s: int) {
    part.sq != 0.0 && Sign(part.sq) == s && TermsOf(part, mult) == t
  }

  predicate AllAt(parts: seq<Fill>, mult: real, t: Terms, s: int) {
    |parts| > 0 ==> At(parts[0], mult, t, s) && AllAt(parts[1..], mult, t, s)
  }

  lemma {:induction false} EachAt(parts: seq<Fill>, mult: real, t: Terms, s: int)
    requires forall i :: 0 <= i < |parts| ==> At(parts[i], mult, t, s)
    ensures AllAt(parts, mult, t, s)
  {
    if |parts| > 0 {
      EachAt(parts[1..], mult, t, s);
    }
  }

  lemma {:induction false} NetSide(parts: seq<Fill>, mult: real, t: Terms, s: int)
    requires AllAt(parts, mult, t, s)
    ensures if |parts| == 0 then NetOf(parts) == 0.0 else Sign(NetOf(parts)) == s
  {
    if |parts| > 0 {
      NetSide(parts[1..], mult, t, s);
    }
  }

  lemma {:induction false} WalkFirst(lots: seq<Holding>, fills: seq<Fill>, mult: real, first: Applied)
    requires |fills| > 0 && mult != 0.0 && first == Apply(lots, fills[0], mult)
    ensures LotsAfter(lots, fills, mult) == LotsAfter(first.lots, fills[1..], mult)
    ensures LifoTotal(lots, fills, mult) == first.realized.GetOr(0.0) + LifoTotal(first.lots, fills[1..], mult)
    ensures |fills| == 1 ==>
              LotsAfter(first.lots, fills[1..], mult) == first.lots && LifoTotal(first.lots, fills[1..], mult) == 0.0
  {
  }

  /** The first fill of a walk is a trade, and the walk goes on from what it leaves. */
  lemma {:induction false} FirstIsTrade(lots: seq<Holding>, parts: seq<Fill>, mult: real, t: Terms, s: int)
    returns (first: Applied)
    requires Nonzero(lots) && mult != 0.0 && |parts| > 0 && At(parts[0], mult, t, s)
    ensures Nonzero(first.lots)
    ensures Trade(Joined(lots), parts[0].sq, t) == Outcome(Joined(first.lots), first.realized.GetOr(0.0))
    ensures LotsAfter(lots, parts, mult) == LotsAfter(first.lots, parts[1..], mult)
    ensures LifoTotal(lots, parts, mult) == first.realized.GetOr(0.0) + LifoTotal(first.lots, parts[1..], mult)
  {
    first := Apply(lots, parts[0], mult);
    WalkFirst(lots, parts, mult, first);
    ApplyIsTrade(lots, parts[0], mult, first);
  }

  /** A first trade and one of the rest, on the same side. */
  lemma {:induction false} ComposeTrades(s: Stack, q: real, r: real, net: real, t: Terms,
                                         first: Outcome, second: Outcome, whole: Outcome)
    requires t.mult != 0.0 && q != 0.0 && (r == 0.0 || Sign(q) == Sign(r)) && net == q + r
    requires first == Trade(s, q, t) && second == Trade(first.stack, r, t)
    requires whole == Outcome(second.stack, first.pnl + second.pnl)
    ensures Trade(s, net, t) == whole
  {
    if r != 0.0 {
      TradeInTwo(s, q, r, t, first, second);
    }
  }

  /** Walking fills at the same terms and side is one trade of what they add up to. */
  lemma {:induction false} WalkIsTrade(lots: seq<Holding>, parts: seq<Fill>, mult: real, t: Terms, s: int,
                                       after: seq<Holding>, total: real)
    requires Nonzero(lots) && mult != 0.0 && t.mult == mult && AllAt(parts, mult, t, s)
    requires after == LotsAfter(lots, parts, mult) && total == LifoTotal(lots, parts, mult)
    ensures Nonzero(after) && Trade(Joined(lots), NetOf(parts), t) == Outcome(Joined(after), total)
    decreases |parts|
  {
    if |parts| > 0 {
      var rest := parts[1..];
      var first := FirstIsTrade(lots, parts, mult, t, s);
      var gain := first.realized.GetOr(0.0);
      WalkIsTrade(first.lots, rest, mult, t, s, after, total - gain);
      NetSide(rest, mult, t, s);
      ComposeTrades(Joined(lots), parts[0].sq, NetOf(rest), NetOf(parts), t, Outcome(Joined(first.lots), gain),
                    Outcome(Joined(after), total - gain), Outcome(Joined(after), total));
    }
  }

  lemma {:induction false} PartsAreTrade(lots: seq<Holding>, f: Fill, parts: seq<Fill>, mult: real)
    requires Nonzero(lots) && mult != 0.0 && Parts(f, parts)
    ensures Nonzero(LotsAfter(lots, parts, mult))
    ensures Trade(Joined(lots), f.sq, TermsOf(f, mult))
         == Outcome(Joined(LotsAfter(lots, parts, mult)), LifoTotal(lots, parts, mult))
  {
    forall i | 0 <= i < |parts| ensures At(parts[i], mult, TermsOf(f, mult), Sign(f.sq)) {
      PartTerms(f, parts[i], mult);
    }
    EachAt(parts, mult, TermsOf(f, mult), Sign(f.sq));
    WalkIsTrade(lots, parts, mult, TermsOf(f, mult), Sign(f.sq), LotsAfter(lots, parts, mult),
                LifoTotal(lots, parts, mult));
  }

  // ---- Whole walks ------------------------------------------------------------------

  lemma {:induction false} WalkConcat(lots: seq<Holding>, a: seq<Fill>, b: seq<Fill>, mult: real)
    requires mult != 0.0
    ensures LotsAfter(lots, a + b, mult) == LotsAfter(LotsAfter(lots, a, mult), b, mult)
    ensures LifoTotal(lots, a + b, mult) == LifoTotal(lots, a, mult) + LifoTotal(LotsAfter(lots, a, mult), b, mult)
    decreases |a|
  {
    if |a| == 0 {
      assert a + b == b;
    } else {
      assert (a + b)[1..] == a[1..] + b;
      WalkConcat(Apply(lots, a[0], mult).lots, a[1..], b, mult);
    }
  }

  /**
   In a sequence of fills of any size each may be reported in any parts, and the walk may start from lots
   that differ in how alike neighbours are cut: total P&L and the joined lots stay the same.
   */
  lemma {:induction false} PartitionsChangeNothing(a: seq<Holding>, b: seq<Holding>, fills: seq<Fill>,
                                                   parts: seq<seq<Fill>>, mult: real)
    requires Nonzero(a) && Nonzero(b) && Joined(a) == Joined(b) && mult != 0.0
    requires |parts| == |fills| && forall i :: 0 <= i < |fills| ==> Parts(fills[i], parts[i])
    ensures LifoTotal(a, fills, mult) == LifoTotal(b, Flatten(parts), mult)
    ensures Joined(LotsAfter(a, fills, mult)) == Joined(LotsAfter(b, Flatten(parts), mult))
    decreases |fills|
  {
    if |fills| > 0 {
      var first, after := Apply(a, fills[0], mult), LotsAfter(b, parts[0], mult);
      assert Parts(fills[0], parts[0]);
      WalkFirst(a, fills, mult, first);
      ApplyIsTrade(a, fills[0], mult, first);
      PartsAreTrade(b, fills[0], parts[0], mult);
      WalkConcat(b, parts[0], Flatten(parts[1..]), mult);
      forall i | 0 <= i < |fills| - 1 ensures Parts(fills[1..][i], parts[1..][i]) {
        assert Parts(fills[i + 1], parts[i + 1]);
      }
      PartitionsChangeNothing(first.lots, after, fills[1..], parts[1..], mult);
    }
  }

  lemma {:induction false} FillKeepsWhole(lots: seq<Holding>, f: Fill, mult: real, first: Applied)
    requires WholeLots(lots) && f.sq != 0.0 && Whole(f.sq) && mult != 0.0 && first == Apply(lots, f, mult)
    ensures WholeLots(first.lots)
  {
    BlockRefinesShares(lots, f, mult, []);
  }

  /** A walk of whole fills leaves whole lots. */
  lemma {:induction false} WalkKeepsWhole(lots: seq<Holding>, fills: seq<Fill>, mult: real)
    requires WholeLots(lots) && mult != 0.0
    requires forall i :: 0 <= i < |fills| ==> fills[i].sq != 0.0 && Whole(fills[i].sq)
    ensures WholeLots(LotsAfter(lots, fills, mult))
    decreases |fills|
  {
    if |fills| > 0 {
      var first := Apply(lots, fills[0], mult);
      FillKeepsWhole(lots, fills[0], mult, first);
      WalkFirst(lots, fills, mult, first);
      WalkKeepsWhole(first.lots, fills[1..], mult);
    }
  }

  /** On whole lots and fills: from the same shares, cut in any way, to the same shares. */
  lemma {:induction false} WholePartitions(a: seq<Holding>, b: seq<Holding>, fills: seq<Fill>,
                                           parts: seq<seq<Fill>>, mult: real)
    requires WholeLots(a) && WholeLots(b) && Expand(a) == Expand(b) && mult != 0.0
    requires |parts| == |fills| && forall i :: 0 <= i < |fills| ==> Parts(fills[i], parts[i]) && Whole(fills[i].sq)
    requires forall i :: 0 <= i < |Flatten(parts)| ==> Flatten(parts)[i].sq != 0.0 && Whole(Flatten(parts)[i].sq)
    ensures LifoTotal(a, fills, mult) == LifoTotal(b, Flatten(parts), mult)
    ensures var left, leftInParts := LotsAfter(a, fills, mult), LotsAfter(b, Flatten(parts), mult);
            WholeLots(left) && WholeLots(leftInParts) && Expand(left) == Expand(leftInParts)
  {
    JoinedIffShares(a, b);
    PartitionsChangeNothing(a, b, fills, parts, mult);
    assert forall i :: 0 <= i < |fills| ==> Parts(fills[i], parts[i]);
    WalkKeepsWhole(a, fills, mult);
    WalkKeepsWhole(b, Flatten(parts), mult);
    JoinedIffShares(LotsAfter(a, fills, mult), LotsAfter(b, Flatten(parts), mult));
  }
}
