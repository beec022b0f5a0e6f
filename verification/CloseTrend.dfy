/** Ascending close-price trend from confirmed peaks and valleys (signals_lib/trend.py). */
module CloseTrend {
  import opened Wrappers
  import opened Reals
  import opened Tails
  import opened SwingPoints

  datatype Trend = Trend(up: bool, valleyBarsAgo: Option<int>, nearValley: bool, strength: nat)

  function KeepOf(trendPoints: nat): nat {
    trendPoints + 3
  }

  predicate Near(price: real, level: real) {
    level > 0.0 && 0.0 <= (price - level) / level < 0.0015
  }

  predicate TrendUp(peaks: seq<Swing>, valleys: seq<Swing>, trendPoints: nat) {
    && |peaks| >= trendPoints && |valleys| >= trendPoints
    && Ascending(Slice(peaks, trendPoints)) && Ascending(Slice(valleys, trendPoints))
  }

  /** A bar's features from the peaks and valleys kept so far. */
  function Features(peaks: seq<Swing>, valleys: seq<Swing>, price: real, i: nat, trendPoints: nat): Trend {
    var up := TrendUp(peaks, valleys, trendPoints);
    var last := |valleys| - 1;
    Trend(up,
          if last < 0 then None else Some(i - valleys[last].bar),
          last >= 0 && Near(price, valleys[last].value),
          if up then Run(valleys) else 0)
  }

  /** What the pass over the whole frame writes at bar `i`. */
  function TrendAt(close: seq<real>, w: nat, trendPoints: nat, i: nat): Trend
    requires i < |close|
  {
    var keep := KeepOf(trendPoints);
    Features(Kept(High, close, w, keep, i + 1), Kept(Low, close, w, keep, i + 1), close[i], i, trendPoints)
  }

  /** The rows of the whole-frame pass, by bar. */
  function Rows(close: seq<real>, w: nat, trendPoints: nat): int --> Trend {
    (i: int) requires 0 <= i < |close| => TrendAt(close, w, trendPoints, i)
  }

  method AddCloseTrendFeatures(close: seq<real>, w: nat, trendPoints: nat)
    returns (up: array<bool>, ago: array<Option<int>>, near: array<bool>, strengths: array<nat>)
    ensures up.Length == ago.Length == near.Length == strengths.Length == |close|
    ensures forall i :: 0 <= i < |close| ==>
              Trend(up[i], ago[i], near[i], strengths[i]) == TrendAt(close, w, trendPoints, i)
  {
    var n := |close|;
    var isPeak, isValley := MarkSwings(close, close, w);
    up, ago := new bool[n](_ => false), new Option<int>[n](_ => None);
    near, strengths := new bool[n](_ => false), new nat[n](_ => 0);
    Fill(close, w, trendPoints, isPeak, isValley, up, ago, near, strengths);
  }

  /** The second pass: confirm with a delay, and write each bar's features. */
  method Fill(close: seq<real>, w: nat, trendPoints: nat, isPeak: seq<bool>, isValley: seq<bool>,
              up: array<bool>, ago: array<Option<int>>, near: array<bool>, strengths: array<nat>)
    requires Marked(High, close, w, isPeak) && Marked(Low, close, w, isValley)
    requires up.Length == ago.Length == near.Length == strengths.Length == |close| && up != near
    modifies up, ago, near, strengths
    ensures Written(up, ago, near, strengths, seq(|close|, Rows(close, w, trendPoints)))
  {
    var peaks: seq<Swing>, valleys: seq<Swing> := [], [];
    ghost var row := Rows(close, w, trendPoints);
    for i := 0 to |close|
      invariant peaks == Kept(High, close, w, KeepOf(trendPoints), i)
      invariant valleys == Kept(Low, close, w, KeepOf(trendPoints), i)
      invariant Written(up, ago, near, strengths, seq(i, row))
    {
      peaks, valleys := NextBar(close, w, trendPoints, isPeak, isValley, up, ago, near, strengths,
                                i, peaks, valleys, row);
    }
  }

  /** One bar of that pass. */
  method NextBar(close: seq<real>, w: nat, trendPoints: nat, isPeak: seq<bool>, isValley: seq<bool>,
                 up: array<bool>, ago: array<Option<int>>, near: array<bool>, strengths: array<nat>,
                 i: nat, peaks: seq<Swing>, valleys: seq<Swing>, ghost row: int --> Trend)
    returns (peaks': seq<Swing>, valleys': seq<Swing>)
    requires Marked(High, close, w, isPeak) && Marked(Low, close, w, isValley)
    requires i < |close| == up.Length == ago.Length == near.Length == strengths.Length && up != near
    requires peaks == Kept(High, close, w, KeepOf(trendPoints), i)
    requires valleys == Kept(Low, close, w, KeepOf(trendPoints), i)
    requires row == Rows(close, w, trendPoints) && Written(up, ago, near, strengths, seq(i, row))
    modifies up, ago, near, strengths
    ensures peaks' == Kept(High, close, w, KeepOf(trendPoints), i + 1)
    ensures valleys' == Kept(Low, close, w, KeepOf(trendPoints), i + 1)
    ensures Written(up, ago, near, strengths, seq(i + 1, row))
  {
    var t: Trend;
    peaks', valleys', t := ReadBar(close, w, trendPoints, isPeak, isValley, i, peaks, valleys);
    assert t == row(i);
    OneMore(row, i);
    Write(up, ago, near, strengths, i, t, seq(i, row));
  }

  /** Confirm what the bar confirms, and compute its features. */
  method ReadBar(close: seq<real>, w: nat, trendPoints: nat, isPeak: seq<bool>, isValley: seq<bool>, i: nat,
                 peaks: seq<Swing>, valleys: seq<Swing>)
    returns (peaks': seq<Swing>, valleys': seq<Swing>, t: Trend)
    requires Marked(High, close, w, isPeak) && Marked(Low, close, w, isValley) && i < |close|
    requires peaks == Kept(High, close, w, KeepOf(trendPoints), i)
    requires valleys == Kept(Low, close, w, KeepOf(trendPoints), i)
    ensures peaks' == Kept(High, close, w, KeepOf(trendPoints), i + 1)
    ensures valleys' == Kept(Low, close, w, KeepOf(trendPoints), i + 1)
    ensures t == TrendAt(close, w, trendPoints, i)
  {
    peaks' := Keep(High, close, w, KeepOf(trendPoints), i, isPeak, peaks);
    valleys' := Keep(Low, close, w, KeepOf(trendPoints), i, isValley, valleys);
    t := BarFeatures(peaks', valleys', close[i], i, trendPoints);
  }

  /** The output columns hold these rows, from the first bar on. */
  ghost predicate Written(up: array<bool>, ago: array<Option<int>>, near: array<bool>, strengths: array<nat>,
                          rows: seq<Trend>)
    reads up, ago, near, strengths
  {
    && |rows| <= up.Length == ago.Length == near.Length == strengths.Length
    && forall j :: 0 <= j < |rows| ==> rows[j] == Trend(up[j], ago[j], near[j], strengths[j])
  }

  method Write(up: array<bool>, ago: array<Option<int>>, near: array<bool>, strengths: array<nat>, i: nat, t: Trend,
               ghost rows: seq<Trend>)
    requires Written(up, ago, near, strengths, rows) && |rows| == i < up.Length && up != near
    modifies up, ago, near, strengths
    ensures Written(up, ago, near, strengths, rows + [t])
  {
    up[i], ago[i], near[i], strengths[i] := t.up, t.valleyBarsAgo, t.nearValley, t.strength;
  }

  method BarFeatures(peaks: seq<Swing>, valleys: seq<Swing>, price: real, i: nat, trendPoints: nat) returns (t: Trend)
    ensures t == Features(peaks, valleys, price, i, trendPoints)
  {
    t := Trend(false, None, false, 0);
    if |peaks| >= trendPoints && |valleys| >= trendPoints {
      if Ascending(Slice(peaks, trendPoints)) && Ascending(Slice(valleys, trendPoints)) {
        var strength := CountRun(valleys);
        t := t.(up := true, strength := strength);
      }
    }
    if |valleys| > 0 {
      var last := valleys[|valleys| - 1];
      t := t.(valleyBarsAgo := Some(i - last.bar));
      if last.value > 0.0 {
        var above := (price - last.value) / last.value;
        t := t.(nearValley := 0.0 <= above < 0.0015);
      }
    }
  }

  // ---- What the features mean, without trimming or later bars -----------------------

  /** The features from untrimmed histories: runs long enough, and a strength capped by what is kept. */
  function Seen(peaks: seq<Swing>, valleys: seq<Swing>, price: real, i: nat, trendPoints: nat): Trend {
    var last := |valleys| - 1;
    var steps := Steps(trendPoints, KeepOf(trendPoints));
    var up := && |peaks| >= trendPoints && |valleys| >= trendPoints
              && Run(peaks) + 1 >= Least(steps, |peaks|) && Run(valleys) + 1 >= Least(steps, |valleys|);
    Trend(up,
          if last < 0 then None else Some(i - valleys[last].bar),
          last >= 0 && Near(price, valleys[last].value),
          if up then Least(Run(valleys), KeepOf(trendPoints) - 1) else 0)
  }

  /** The features of a frame's last bar from all it confirms, nothing trimmed. */
  function TrendSeen(close: seq<real>, w: nat, trendPoints: nat): Trend
    requires |close| > 0
  {
    Seen(Confirmed(High, close, w), Confirmed(Low, close, w), close[|close| - 1], |close| - 1, trendPoints)
  }

  lemma {:induction false} UpUntrimmed(peaks: seq<Swing>, valleys: seq<Swing>, price: real, i: nat, trendPoints: nat)
    ensures TrendUp(LastN(peaks, KeepOf(trendPoints)), LastN(valleys, KeepOf(trendPoints)), trendPoints)
         == Seen(peaks, valleys, price, i, trendPoints).up
  {
    SliceAscends(peaks, KeepOf(trendPoints), trendPoints);
    SliceAscends(valleys, KeepOf(trendPoints), trendPoints);
  }

  lemma {:induction false} FeaturesUntrimmed(peaks: seq<Swing>, valleys: seq<Swing>, price: real, i: nat,
                                             trendPoints: nat)
    ensures Features(LastN(peaks, KeepOf(trendPoints)), LastN(valleys, KeepOf(trendPoints)), price, i, trendPoints)
         == Seen(peaks, valleys, price, i, trendPoints)
  {
    LastNEnds(valleys, KeepOf(trendPoints));
    UpUntrimmed(peaks, valleys, price, i, trendPoints);
    TrimmedRun(valleys, KeepOf(trendPoints));
  }

  /**
   Every output at bar `i` of the whole frame is the one computed from the frame cut off after bar `i`
   with its whole history; trimming only caps the strength.
   */
  lemma {:induction false} TrendNeedsOnlyThePast(close: seq<real>, w: nat, trendPoints: nat, i: nat)
    requires i < |close|
    ensures TrendAt(close, w, trendPoints, i) == TrendSeen(close[..i + 1], w, trendPoints)
  {
    var keep, c := KeepOf(trendPoints), close[..i + 1];
    KeptIsLast(High, close, w, keep, i + 1);
    KeptIsLast(Low, close, w, keep, i + 1);
    FeaturesUntrimmed(Confirmed(High, c, w), Confirmed(Low, c, w), close[i], i, trendPoints);
  }

  /** No look-ahead: frames that agree on bars 0..i have the same outputs there. */
  lemma {:induction false} NoLookAhead(a: seq<real>, b: seq<real>, w: nat, trendPoints: nat, i: nat)
    requires i < |a| && i < |b| && a[..i + 1] == b[..i + 1]
    ensures forall j :: 0 <= j <= i ==> TrendAt(a, w, trendPoints, j) == TrendAt(b, w, trendPoints, j)
  {
    forall j | 0 <= j <= i ensures TrendAt(a, w, trendPoints, j) == TrendAt(b, w, trendPoints, j) {
      TrendNeedsOnlyThePast(a, w, trendPoints, j);
      TrendNeedsOnlyThePast(b, w, trendPoints, j);
      assert a[..i + 1][..j + 1] == a[..j + 1] && b[..i + 1][..j + 1] == b[..j + 1];
    }
  }

  /** In an up-trend the strength counts at least the steps asked for and at most those kept. */
  lemma {:induction false} StrengthBounds(close: seq<real>, w: nat, trendPoints: nat, i: nat)
    requires i < |close| && trendPoints >= 1
    ensures var t := TrendAt(close, w, trendPoints, i);
            (t.up ==> trendPoints - 1 <= t.strength <= trendPoints + 2) && (!t.up ==> t.strength == 0)
  {
    TrendNeedsOnlyThePast(close, w, trendPoints, i);
  }

  lemma {:induction false} TrendIsSeen(close: seq<real>, w: nat, trendPoints: nat, i: nat,
                                       peaks: seq<Swing>, valleys: seq<Swing>)
    requires i < |close| && peaks == Confirmed(High, close[..i + 1], w) && valleys == Confirmed(Low, close[..i + 1], w)
    ensures TrendAt(close, w, trendPoints, i) == Seen(peaks, valleys, close[i], i, trendPoints)
  {
    TrendNeedsOnlyThePast(close, w, trendPoints, i);
  }

  /** At or above a positive level, and less than 0.15 % above it. */
  predicate JustOver(price: real, level: real) {
    level > 0.0 && level <= price < level + 0.0015 * level
  }

  lemma {:induction false} NearIsJustOver(price: real, level: real)
    ensures Near(price, level) <==> JustOver(price, level)
  {
    if level > 0.0 {
      RatioBelow(price - level, level, 0.0015);
      RatioBelow(price - level, level, 0.0);
    }
  }

  /** An up-trend, from all peaks and valleys so far: enough of both, and the last of each rising. */
  predicate Climbs(peaks: seq<Swing>, valleys: seq<Swing>, trendPoints: nat) {
    var steps := if trendPoints == 0 then 2 else trendPoints - 1;
    |peaks| >= trendPoints && |valleys| >= trendPoints && Rises(peaks, steps) && Rises(valleys, steps)
  }

  /** What the features say, from all peaks and valleys so far. */
  ghost predicate Says(t: Trend, peaks: seq<Swing>, valleys: seq<Swing>, price: real, i: nat, trendPoints: nat) {
    var last := |valleys| - 1;
    && (t.up <==> Climbs(peaks, valleys, trendPoints))
    && t.valleyBarsAgo == (if last < 0 then None else Some(i - valleys[last].bar))
    && (t.nearValley <==> last >= 0 && JustOver(price, valleys[last].value))
    && (!t.up ==> t.strength == 0)
    && (t.up ==> t.strength <= trendPoints + 2 && Rises(valleys, t.strength)
                 && (t.strength < |valleys| - 1 && t.strength < trendPoints + 2 ==> !Rises(valleys, t.strength + 1)))
  }

  lemma {:induction false} SeenSays(peaks: seq<Swing>, valleys: seq<Swing>, price: real, i: nat, trendPoints: nat)
    ensures Says(Seen(peaks, valleys, price, i, trendPoints), peaks, valleys, price, i, trendPoints)
  {
    LongRunRises(peaks, Steps(trendPoints, KeepOf(trendPoints)));
    LongRunRises(valleys, Steps(trendPoints, KeepOf(trendPoints)));
    AscendingIsRun(valleys);
    var strength := Least(Run(valleys), KeepOf(trendPoints) - 1);
    RunIsRising(valleys, strength);
    if strength < |valleys| - 1 {
      RunIsRising(valleys, strength + 1);
    }
    if |valleys| > 0 {
      NearIsJustOver(price, valleys[|valleys| - 1].value);
    }
  }

  /**
   Every output at a bar, from the closes alone: whether the last peaks and the last valleys of those that have
   a full window after them rise, how many steps the valleys have risen, and where the newest valley is.
   */
  lemma {:induction false} TrendMeans(close: seq<real>, w: nat, trendPoints: nat, i: nat)
    returns (peaks: seq<Swing>, valleys: seq<Swing>)
    requires i < |close|
    ensures AllPeaks(peaks, close, w, i) && AllValleys(valleys, close, w, i)
    ensures Says(TrendAt(close, w, trendPoints, i), peaks, valleys, close[i], i, trendPoints)
  {
    peaks, valleys := Confirmed(High, close[..i + 1], w), Confirmed(Low, close[..i + 1], w);
    AllConfirmed(close, w, i);
    TrendIsSeen(close, w, trendPoints, i, peaks, valleys);
    SeenSays(peaks, valleys, close[i], i, trendPoints);
  }

  lemma {:induction false} AgeOfNewest(close: seq<real>, w: nat, i: nat, valleys: seq<Swing>, ago: Option<int>)
    requires AllValleys(valleys, close, w, i)
    requires ago == if |valleys| == 0 then None else Some(i - valleys[|valleys| - 1].bar)
    ensures forall bar: nat :: ago == Some(i - bar) <==> NewestValley(close, w, i, bar)
  {
    forall bar: nat ensures ago == Some(i - bar) <==> NewestValley(close, w, i, bar) {
      LastIsNewest(valleys, close, w, i, bar);
    }
  }

  /** The age reported is that of the newest valley with `w` bars after it, and there is one if it is reported. */
  lemma {:induction false} ValleyAge(close: seq<real>, w: nat, trendPoints: nat, i: nat)
    requires i < |close|
    ensures var ago := TrendAt(close, w, trendPoints, i).valleyBarsAgo;
            forall bar: nat :: ago == Some(i - bar) <==> NewestValley(close, w, i, bar)
  {
    var _, valleys := TrendMeans(close, w, trendPoints, i);
    AgeOfNewest(close, w, i, valleys, TrendAt(close, w, trendPoints, i).valleyBarsAgo);
  }
}
