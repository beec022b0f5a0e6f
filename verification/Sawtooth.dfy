/** Sawtooth up-trend and bounce after a dip from confirmed swings (signals_lib/sawtooth.py). */
module Sawtooth {
  import opened Wrappers
  import opened Reals
  import opened Tails
  import opened SwingPoints

  /** The columns of a frame that the detector reads. */
  datatype Frame = Frame(high: seq<real>, low: seq<real>, close: seq<real>)

  datatype Tooth = Tooth(uptrend: bool, atLow: bool, bounce: bool, barsSinceLow: Option<int>)

  predicate Valid(f: Frame) {
    |f.high| == |f.low| == |f.close|
  }

  function KeepOf(trendSwings: nat): nat {
    trendSwings + 2
  }

  /** Within 0.15 % of the level; a level of zero divides to infinity or not-a-number, which is not near. */
  predicate NearLow(price: real, level: real) {
    level != 0.0 && Abs(price - level) / level < 0.0015
  }

  predicate JustAbove(price: real, level: real) {
    level != 0.0 && 0.0 <= (price - level) / level < 0.003
  }

  predicate Uptrend(highs: seq<Swing>, lows: seq<Swing>, trendSwings: nat) {
    && |highs| >= trendSwings && |lows| >= trendSwings
    && Ascending(Slice(highs, trendSwings)) && Ascending(Slice(lows, trendSwings))
  }

  /** A bar's features from the swings kept so far. */
  function Features(highs: seq<Swing>, lows: seq<Swing>, price: real, i: nat, w: nat, trendSwings: nat): Tooth {
    var uptrend := Uptrend(highs, lows, trendSwings);
    if |lows| == 0 then Tooth(uptrend, false, false, None)
    else
      var low := lows[|lows| - 1];
      Tooth(uptrend,
            NearLow(price, low.value),
            uptrend && i >= 1 && 0 <= i - (low.bar + w) <= 3 && JustAbove(price, low.value),
            Some(i - low.bar))
  }

  /** What the pass over the whole frame writes at bar `i`. */
  function ToothAt(f: Frame, w: nat, trendSwings: nat, i: nat): Tooth
    requires Valid(f) && i < |f.close|
  {
    var keep := KeepOf(trendSwings);
    Features(Kept(High, f.high, w, keep, i + 1), Kept(Low, f.low, w, keep, i + 1), f.close[i], i, w, trendSwings)
  }

  /** The rows of the whole-frame pass, by bar. */
  function Rows(f: Frame, w: nat, trendSwings: nat): int --> Tooth
    requires Valid(f)
  {
    (i: int) requires 0 <= i < |f.close| => ToothAt(f, w, trendSwings, i)
  }

  method AddSawtoothFeatures(f: Frame, w: nat, trendSwings: nat)
    returns (uptrend: array<bool>, atLow: array<bool>, bounce: array<bool>, since: array<Option<int>>)
    requires Valid(f)
    ensures uptrend.Length == atLow.Length == bounce.Length == since.Length == |f.close|
    ensures forall i :: 0 <= i < |f.close| ==>
              Tooth(uptrend[i], atLow[i], bounce[i], since[i]) == ToothAt(f, w, trendSwings, i)
  {
    var n := |f.high|;
    var highAt, lowAt := MarkSwings(f.high, f.low, w);
    uptrend, atLow := new bool[n](_ => false), new bool[n](_ => false);
    bounce, since := new bool[n](_ => false), new Option<int>[n](_ => None);
    Fill(f, w, trendSwings, highAt, lowAt, uptrend, atLow, bounce, since);
  }

  /** The second pass: confirm with a delay, and write each bar's features. */
  method Fill(f: Frame, w: nat, trendSwings: nat, highAt: seq<bool>, lowAt: seq<bool>,
              uptrend: array<bool>, atLow: array<bool>, bounce: array<bool>, since: array<Option<int>>)
    requires Valid(f) && Marked(High, f.high, w, highAt) && Marked(Low, f.low, w, lowAt)
    requires uptrend.Length == atLow.Length == bounce.Length == since.Length == |f.close|
    requires uptrend != atLow && uptrend != bounce && atLow != bounce
    modifies uptrend, atLow, bounce, since
    ensures Written(uptrend, atLow, bounce, since, seq(|f.close|, Rows(f, w, trendSwings)))
  {
    var highs: seq<Swing>, lows: seq<Swing> := [], [];
    ghost var row := Rows(f, w, trendSwings);
    for i := 0 to |f.close|
      invariant highs == Kept(High, f.high, w, KeepOf(trendSwings), i)
      invariant lows == Kept(Low, f.low, w, KeepOf(trendSwings), i)
      invariant Written(uptrend, atLow, bounce, since, seq(i, row))
    {
      highs, lows := NextBar(f, w, trendSwings, highAt, lowAt, uptrend, atLow, bounce, since, i, highs, lows, row);
    }
  }

  /** One bar of that pass. */
  method NextBar(f: Frame, w: nat, trendSwings: nat, highAt: seq<bool>, lowAt: seq<bool>,
                 uptrend: array<bool>, atLow: array<bool>, bounce: array<bool>, since: array<Option<int>>,
                 i: nat, highs: seq<Swing>, lows: seq<Swing>, ghost row: int --> Tooth)
    returns (highs': seq<Swing>, lows': seq<Swing>)
    requires Valid(f) && Marked(High, f.high, w, highAt) && Marked(Low, f.low, w, lowAt)
    requires i < |f.close| == uptrend.Length == atLow.Length == bounce.Length == since.Length
    requires uptrend != atLow && uptrend != bounce && atLow != bounce
    requires highs == Kept(High, f.high, w, KeepOf(trendSwings), i)
    requires lows == Kept(Low, f.low, w, KeepOf(trendSwings), i)
    requires row == Rows(f, w, trendSwings) && Written(uptrend, atLow, bounce, since, seq(i, row))
    modifies uptrend, atLow, bounce, since
    ensures highs' == Kept(High, f.high, w, KeepOf(trendSwings), i + 1)
    ensures lows' == Kept(Low, f.low, w, KeepOf(trendSwings), i + 1)
    ensures Written(uptrend, atLow, bounce, since, seq(i + 1, row))
  {
    var t: Tooth;
    highs', lows', t := ReadBar(f, w, trendSwings, highAt, lowAt, i, highs, lows);
    assert t == row(i);
    OneMore(row, i);
    Write(uptrend, atLow, bounce, since, i, t, seq(i, row));
  }

  /** Confirm what the bar confirms, and compute its features. */
  method ReadBar(f: Frame, w: nat, trendSwings: nat, highAt: seq<bool>, lowAt: seq<bool>, i: nat,
                 highs: seq<Swing>, lows: seq<Swing>)
    returns (highs': seq<Swing>, lows': seq<Swing>, t: Tooth)
    requires Valid(f) && Marked(High, f.high, w, highAt) && Marked(Low, f.low, w, lowAt) && i < |f.close|
    requires highs == Kept(High, f.high, w, KeepOf(trendSwings), i)
    requires lows == Kept(Low, f.low, w, KeepOf(trendSwings), i)
    ensures highs' == Kept(High, f.high, w, KeepOf(trendSwings), i + 1)
    ensures lows' == Kept(Low, f.low, w, KeepOf(trendSwings), i + 1)
    ensures t == ToothAt(f, w, trendSwings, i)
  {
    highs' := Keep(High, f.high, w, KeepOf(trendSwings), i, highAt, highs);
    lows' := Keep(Low, f.low, w, KeepOf(trendSwings), i, lowAt, lows);
    t := BarFeatures(highs', lows', f.close[i], i, w, trendSwings);
  }

  /** The output columns hold these rows, from the first bar on. */
  ghost predicate Written(uptrend: array<bool>, atLow: array<bool>, bounce: array<bool>,
                          since: array<Option<int>>, rows: seq<Tooth>)
    reads uptrend, atLow, bounce, since
  {
    && |rows| <= uptrend.Length == atLow.Length == bounce.Length == since.Length
    && forall j :: 0 <= j < |rows| ==> rows[j] == Tooth(uptrend[j], atLow[j], bounce[j], since[j])
  }

  method Write(uptrend: array<bool>, atLow: array<bool>, bounce: array<bool>, since: array<Option<int>>, i: nat,
               t: Tooth,
               ghost rows: seq<Tooth>)
    requires Written(uptrend, atLow, bounce, since, rows) && |rows| == i < uptrend.Length
    requires uptrend != atLow && uptrend != bounce && atLow != bounce
    modifies uptrend, atLow, bounce, since
    ensures Written(uptrend, atLow, bounce, since, rows + [t])
  {
    uptrend[i], atLow[i], bounce[i], since[i] := t.uptrend, t.atLow, t.bounce, t.barsSinceLow;
  }

  method BarFeatures(highs: seq<Swing>, lows: seq<Swing>, price: real, i: nat, w: nat, trendSwings: nat)
    returns (t: Tooth)
    ensures t == Features(highs, lows, price, i, w, trendSwings)
  {
    t := Tooth(false, false, false, None);
    if |highs| >= trendSwings && |lows| >= trendSwings {
      t := t.(uptrend := Ascending(Slice(highs, trendSwings)) && Ascending(Slice(lows, trendSwings)));
    }
    if |lows| > 0 {
      var low := lows[|lows| - 1];
      t := t.(barsSinceLow := Some(i - low.bar), atLow := NearLow(price, low.value));
    }
    if t.uptrend && |lows| > 0 && i >= 1 {
      var low := lows[|lows| - 1];
      var sinceConfirm := i - (low.bar + w);
      var justConfirmed := 0 <= sinceConfirm <= 3;
      t := t.(bounce := justConfirmed && JustAbove(price, low.value));
    }
  }

  // ---- What the features mean, without trimming or later bars -----------------------

  /** The frame cut off after its first `n` bars. */
  function Cut(f: Frame, n: nat): Frame
    requires Valid(f) && n <= |f.close|
  {
    Frame(f.high[..n], f.low[..n], f.close[..n])
  }

  /** The features from untrimmed histories, the newest swing low being confirmed by bar `i`. */
  function Seen(highs: seq<Swing>, lows: seq<Swing>, price: real, i: nat, w: nat, trendSwings: nat): Tooth {
    var last, steps := |lows| - 1, Steps(trendSwings, KeepOf(trendSwings));
    var uptrend := && |highs| >= trendSwings && |lows| >= trendSwings
                   && Run(highs) + 1 >= Least(steps, |highs|) && Run(lows) + 1 >= Least(steps, |lows|);
    if last < 0 then Tooth(uptrend, false, false, None)
    else Tooth(uptrend,
               NearLow(price, lows[last].value),
               uptrend && i >= 1 && i - (lows[last].bar + w) <= 3 && JustAbove(price, lows[last].value),
               Some(i - lows[last].bar))
  }

  /** The features of a frame's last bar from all it confirms, nothing trimmed. */
  function ToothSeen(f: Frame, w: nat, trendSwings: nat): Tooth
    requires Valid(f) && |f.close| > 0
  {
    Seen(Confirmed(High, f.high, w), Confirmed(Low, f.low, w), f.close[|f.close| - 1], |f.close| - 1, w, trendSwings)
  }

  lemma {:induction false} UptrendUntrimmed(highs: seq<Swing>, lows: seq<Swing>, price: real, i: nat, w: nat,
                                            trendSwings: nat)
    ensures Uptrend(LastN(highs, KeepOf(trendSwings)), LastN(lows, KeepOf(trendSwings)), trendSwings)
         == Seen(highs, lows, price, i, w, trendSwings).uptrend
  {
    SliceAscends(highs, KeepOf(trendSwings), trendSwings);
    SliceAscends(lows, KeepOf(trendSwings), trendSwings);
  }

  lemma {:induction false} FeaturesUntrimmed(highs: seq<Swing>, lows: seq<Swing>, price: real, i: nat, w: nat,
                                             trendSwings: nat)
    requires |lows| > 0 ==> lows[|lows| - 1].bar + w <= i
    ensures Features(LastN(highs, KeepOf(trendSwings)), LastN(lows, KeepOf(trendSwings)), price, i, w, trendSwings)
         == Seen(highs, lows, price, i, w, trendSwings)
  {
    LastNEnds(lows, KeepOf(trendSwings));
    UptrendUntrimmed(highs, lows, price, i, w, trendSwings);
  }

  /** Every output at bar `i` of the whole frame is the one computed from the frame cut off after bar `i`. */
  lemma {:induction false} ToothNeedsOnlyThePast(f: Frame, w: nat, trendSwings: nat, i: nat)
    requires Valid(f) && i < |f.close|
    ensures ToothAt(f, w, trendSwings, i) == ToothSeen(Cut(f, i + 1), w, trendSwings)
  {
    var keep, c := KeepOf(trendSwings), Cut(f, i + 1);
    KeptIsLast(High, f.high, w, keep, i + 1);
    KeptIsLast(Low, f.low, w, keep, i + 1);
    ConfirmedExactly(Low, f.low, w, i + 1);
    FeaturesUntrimmed(Confirmed(High, c.high, w), Confirmed(Low, c.low, w), f.close[i], i, w, trendSwings);
  }

  lemma {:induction false} SameAt(f: Frame, g: Frame, w: nat, trendSwings: nat, i: nat, j: nat)
    requires Valid(f) && Valid(g) && j <= i < |f.close| && i < |g.close| && Cut(f, i + 1) == Cut(g, i + 1)
    ensures ToothAt(f, w, trendSwings, j) == ToothAt(g, w, trendSwings, j)
  {
    CutTwice(f, i + 1, j + 1);
    CutTwice(g, i + 1, j + 1);
    ToothNeedsOnlyThePast(f, w, trendSwings, j);
    ToothNeedsOnlyThePast(g, w, trendSwings, j);
  }

  /** No look-ahead: frames that agree on bars 0..i have the same outputs there. */
  lemma {:induction false} NoLookAhead(f: Frame, g: Frame, w: nat, trendSwings: nat, i: nat)
    requires Valid(f) && Valid(g) && i < |f.close| && i < |g.close| && Cut(f, i + 1) == Cut(g, i + 1)
    ensures forall j :: 0 <= j <= i ==> ToothAt(f, w, trendSwings, j) == ToothAt(g, w, trendSwings, j)
  {
    forall j | 0 <= j <= i ensures ToothAt(f, w, trendSwings, j) == ToothAt(g, w, trendSwings, j) {
      SameAt(f, g, w, trendSwings, i, j);
    }
  }

  lemma {:induction false} CutTwice(f: Frame, n: nat, m: nat)
    requires Valid(f) && m <= n <= |f.close|
    ensures Cut(Cut(f, n), m) == Cut(f, m)
  {
    assert f.high[..n][..m] == f.high[..m] && f.low[..n][..m] == f.low[..m] && f.close[..n][..m] == f.close[..m];
  }

  lemma {:induction false} ToothIsSeen(f: Frame, w: nat, trendSwings: nat, i: nat, highs: seq<Swing>, lows: seq<Swing>)
    requires Valid(f) && i < |f.close|
    requires highs == Confirmed(High, f.high[..i + 1], w) && lows == Confirmed(Low, f.low[..i + 1], w)
    ensures ToothAt(f, w, trendSwings, i) == Seen(highs, lows, f.close[i], i, w, trendSwings)
  {
    ToothNeedsOnlyThePast(f, w, trendSwings, i);
  }

  /** Within 0.15 % of a positive level; a negative one is always near. */
  predicate Around(price: real, level: real) {
    level < 0.0 || level - 0.0015 * level < price < level + 0.0015 * level
  }

  /** From the level to less than 0.3 % beyond it, away from zero. */
  predicate JustBeyond(price: real, level: real) {
    level <= price < level + 0.003 * level || level + 0.003 * level < price <= level < 0.0
  }

  lemma {:induction false} NearMeans(price: real, level: real)
    ensures NearLow(price, level) <==> Around(price, level)
    ensures JustAbove(price, level) <==> JustBeyond(price, level)
  {
    if level != 0.0 {
      RatioBelow(Abs(price - level), level, 0.0015);
      RatioBelow(price - level, level, 0.003);
      RatioBelow(price - level, level, 0.0);
    }
  }

  /** An up-trend, from all swing highs and lows so far: enough of both, and the last of each rising. */
  predicate Climbs(highs: seq<Swing>, lows: seq<Swing>, trendSwings: nat) {
    var steps := if trendSwings == 0 then 1 else trendSwings - 1;
    |highs| >= trendSwings && |lows| >= trendSwings && Rises(highs, steps) && Rises(lows, steps)
  }

  /** What the features say, from all swing highs and lows so far. */
  ghost predicate Says(t: Tooth, highs: seq<Swing>, lows: seq<Swing>, price: real, i: nat, w: nat, trendSwings: nat) {
    var last := |lows| - 1;
    && (t.uptrend <==> Climbs(highs, lows, trendSwings))
    && t.barsSinceLow == (if last < 0 then None else Some(i - lows[last].bar))
    && (t.atLow <==> last >= 0 && Around(price, lows[last].value))
    && (t.bounce <==> && Climbs(highs, lows, trendSwings) && i >= 1
                      && last >= 0 && i - lows[last].bar <= w + 3 && JustBeyond(price, lows[last].value))
  }

  lemma {:induction false} SeenSays(highs: seq<Swing>, lows: seq<Swing>, price: real, i: nat, w: nat, trendSwings: nat)
    ensures Says(Seen(highs, lows, price, i, w, trendSwings), highs, lows, price, i, w, trendSwings)
  {
    LongRunRises(highs, Steps(trendSwings, KeepOf(trendSwings)));
    LongRunRises(lows, Steps(trendSwings, KeepOf(trendSwings)));
    if |lows| > 0 {
      NearMeans(price, lows[|lows| - 1].value);
    }
  }

  /**
   Every output at a bar, from the columns alone: whether the last swing highs and the last swing lows of those
   that have a full window after them rise, and how far in bars and price the newest swing low is.
   */
  lemma {:induction false} ToothMeans(f: Frame, w: nat, trendSwings: nat, i: nat)
    returns (highs: seq<Swing>, lows: seq<Swing>)
    requires Valid(f) && i < |f.close|
    ensures AllPeaks(highs, f.high, w, i) && AllValleys(lows, f.low, w, i)
    ensures Says(ToothAt(f, w, trendSwings, i), highs, lows, f.close[i], i, w, trendSwings)
  {
    highs, lows := Confirmed(High, f.high[..i + 1], w), Confirmed(Low, f.low[..i + 1], w);
    AllConfirmed(f.high, w, i);
    AllConfirmed(f.low, w, i);
    ToothIsSeen(f, w, trendSwings, i, highs, lows);
    SeenSays(highs, lows, f.close[i], i, w, trendSwings);
  }

  /**
   A bounce is a dip just confirmed: in an up-trend, the newest swing low of the whole frame was
   confirmed at this bar or one of the three before it and the price is at most 0.3 % above it.
   */
  lemma {:induction false} BounceFollowsDip(f: Frame, w: nat, trendSwings: nat, i: nat)
    requires Valid(f) && i < |f.close|
    ensures var t := ToothAt(f, w, trendSwings, i);
            t.bounce <==> && t.uptrend && i >= 1
                          && exists dip: nat :: NewestValley(f.low, w, i, dip) && i - 3 <= dip + w
                                             && JustBeyond(f.close[i], f.low[dip])
  {
    var _, lows := ToothMeans(f, w, trendSwings, i);
    forall dip: nat ensures NewestValley(f.low, w, i, dip) <==> |lows| > 0 && dip == lows[|lows| - 1].bar {
      LastIsNewest(lows, f.low, w, i, dip);
    }
    if |lows| > 0 {
      LastIsNewest(lows, f.low, w, i, lows[|lows| - 1].bar);
    }
  }
}
