/**
 Swing points of a price series, confirmed with a delay: what the close-trend and the sawtooth
 detectors share (signals_lib/trend.py, signals_lib/sawtooth.py).
 */
module SwingPoints {
  import opened Tails

  datatype Side = High | Low

  datatype Swing = Swing(bar: nat, value: real)

  predicate Beats(side: Side, x: real, y: real) {
    if side == High then x > y else x < y
  }

  /** The bar lies strictly beyond every other bar of the window around it. */
  predicate IsSwing(side: Side, s: seq<real>, w: nat, i: int) {
    w <= i < |s| - w && forall j :: i - w <= j <= i + w && j != i ==> Beats(side, s[i], s[j])
  }

  /** The largest (smallest) value of a window. */
  function Extreme(side: Side, window: seq<real>): real
    requires |window| > 0
  {
    if |window| == 1 then window[0]
    else
      var before, last := Extreme(side, window[..|window| - 1]), window[|window| - 1];
      if Beats(side, last, before) then last else before
  }

  /** How often a value occurs in a window. */
  function Occurrences(window: seq<real>, x: real): nat {
    if |window| == 0 then 0
    else Occurrences(window[..|window| - 1], x) + if window[|window| - 1] == x then 1 else 0
  }

  lemma {:induction false} ExtremeIsExtreme(side: Side, window: seq<real>)
    requires |window| > 0
    ensures forall j :: 0 <= j < |window| ==> !Beats(side, window[j], Extreme(side, window))
    ensures exists j :: 0 <= j < |window| && window[j] == Extreme(side, window)
  {
    if |window| == 1 {
      assert window[0] == Extreme(side, window);
    } else {
      var n := |window| - 1;
      ExtremeIsExtreme(side, window[..n]);
      var j :| 0 <= j < n && window[..n][j] == Extreme(side, window[..n]);
      assert window[if Beats(side, window[n], window[j]) then n else j] == Extreme(side, window);
    }
  }

  lemma {:induction false} NotFound(window: seq<real>, x: real)
    ensures Occurrences(window, x) == 0 <==> forall j :: 0 <= j < |window| ==> window[j] != x
  {
    if |window| > 0 {
      NotFound(window[..|window| - 1], x);
      assert forall j :: 0 <= j < |window| - 1 ==> window[..|window| - 1][j] == window[j];
    }
  }

  lemma {:induction false} OccursOnce(window: seq<real>, k: nat)
    requires k < |window|
    ensures Occurrences(window, window[k]) == 1 <==> forall j :: 0 <= j < |window| && j != k ==> window[j] != window[k]
  {
    var n, x := |window| - 1, window[k];
    assert forall j :: 0 <= j < n ==> window[..n][j] == window[j];
    if k == n {
      NotFound(window[..n], x);
    } else {
      OccursOnce(window[..n], k);
      NotFound(window[..n], x);
      if window[n] == x {
        assert window[..n][k] == x;
      }
    }
  }

  /** Being the window's extreme and occurring once in it is being strictly beyond all the others. */
  lemma {:induction false} UniqueExtreme(side: Side, s: seq<real>, w: nat, i: nat)
    requires w <= i < |s| - w
    ensures var window := s[i - w..i + w + 1];
            (s[i] == Extreme(side, window) && Occurrences(window, s[i]) == 1) <==> IsSwing(side, s, w, i)
  {
    var window := s[i - w..i + w + 1];
    ExtremeIsExtreme(side, window);
    OccursOnce(window, w);
    assert window[w] == s[i];
    assert forall j :: i - w <= j <= i + w ==> s[j] == window[j - (i - w)];
  }

  /** The bar is strictly above every other bar of the window around it. */
  predicate Peak(s: seq<real>, w: nat, i: int) {
    w <= i < |s| - w && forall j :: i - w <= j <= i + w && j != i ==> s[i] > s[j]
  }

  /** The bar is strictly below every other bar of the window around it. */
  predicate Valley(s: seq<real>, w: nat, i: int) {
    w <= i < |s| - w && forall j :: i - w <= j <= i + w && j != i ==> s[i] < s[j]
  }

  lemma {:induction false} SwingMeans(s: seq<real>, w: nat, i: int)
    ensures IsSwing(High, s, w, i) <==> Peak(s, w, i)
    ensures IsSwing(Low, s, w, i) <==> Valley(s, w, i)
  {
  }

  /** The marks are on exactly the swings of the series. */
  predicate Marked(side: Side, s: seq<real>, w: nat, marks: seq<bool>) {
    |marks| == |s| && forall i :: 0 <= i < |s| ==> marks[i] == IsSwing(side, s, w, i)
  }

  /** One pass over the whole frame that marks the swing highs of one series and the lows of another. */
  method MarkSwings(high: seq<real>, low: seq<real>, w: nat) returns (tops: seq<bool>, bottoms: seq<bool>)
    requires |high| == |low|
    ensures Marked(High, high, w, tops) && Marked(Low, low, w, bottoms)
    ensures |tops| == |bottoms| == |high|
    ensures forall i :: 0 <= i < |high| ==> (tops[i] <==> Peak(high, w, i)) && (bottoms[i] <==> Valley(low, w, i))
  {
    var top, bottom := new bool[|high|](_ => false), new bool[|low|](_ => false);
    var i := w;
    while i < |high| - w
      invariant w <= i
      invariant forall j :: 0 <= j < |high| ==> top[j] == (j < i && IsSwing(High, high, w, j))
      invariant forall j :: 0 <= j < |low| ==> bottom[j] == (j < i && IsSwing(Low, low, w, j))
    {
      var window := high[i - w..i + w + 1];
      if high[i] == Extreme(High, window) && Occurrences(window, high[i]) == 1 {
        top[i] := true;
      }
      UniqueExtreme(High, high, w, i);
      window := low[i - w..i + w + 1];
      if low[i] == Extreme(Low, window) && Occurrences(window, low[i]) == 1 {
        bottom[i] := true;
      }
      UniqueExtreme(Low, low, w, i);
      i := i + 1;
    }
    forall j | 0 <= j < |high| ensures (top[j] <==> Peak(high, w, j)) && (bottom[j] <==> Valley(low, w, j)) {
      SwingMeans(high, w, j);
      SwingMeans(low, w, j);
    }
    return top[..], bottom[..];
  }

  // ---- Confirmation with a delay -------------------------------------------------

  /** The swing that bar `i` confirms: the one at bar `i - w`, if that bar is one. */
  function Confirms(side: Side, s: seq<real>, w: nat, i: nat): seq<Swing> {
    if IsSwing(side, s, w, i - w) then [Swing(i - w, s[i - w])] else []
  }

  /** The list kept after the first `n` bars of the whole frame, trimmed to the newest `keep`. */
  function Kept(side: Side, s: seq<real>, w: nat, keep: nat, n: nat): seq<Swing> {
    if n == 0 then [] else LastN(Kept(side, s, w, keep, n - 1) + Confirms(side, s, w, n - 1), keep)
  }

  /** One bar of the source's bookkeeping: append what the bar confirms, cut the list when it is too long. */
  lemma {:induction false} KeptNext(side: Side, s: seq<real>, w: nat, keep: nat, i: nat)
    requires i < |s|
    ensures var kept := Kept(side, s, w, keep, i);
            && |kept| <= keep
            && Kept(side, s, w, keep, i + 1)
            == if IsSwing(side, s, w, i - w) then LastN(kept + [Swing(i - w, s[i - w])], keep) else kept
  {
    assert Kept(side, s, w, keep, i) + [] == Kept(side, s, w, keep, i);
  }

  /** Append what bar `i` confirms, cutting the list when it grows too long. */
  method Keep(side: Side, s: seq<real>, w: nat, keep: nat, i: nat, marks: seq<bool>, kept: seq<Swing>)
    returns (kept': seq<Swing>)
    requires i < |s| && Marked(side, s, w, marks)
    requires kept == Kept(side, s, w, keep, i)
    ensures kept' == Kept(side, s, w, keep, i + 1)
  {
    kept' := kept;
    KeptNext(side, s, w, keep, i);
    var confirm := i - w;
    if confirm >= 0 {
      if marks[confirm] {
        kept' := Append(kept, Swing(confirm, s[confirm]), keep);
      }
    }
  }

  method Append(kept: seq<Swing>, swing: Swing, keep: nat) returns (kept': seq<Swing>)
    requires |kept| <= keep
    ensures kept' == LastN(kept + [swing], keep)
  {
    kept' := kept + [swing];
    if |kept'| > keep {
      kept' := kept'[|kept'| - keep..];
    }
  }

  /** Every swing confirmed by the end of a frame, never trimmed. */
  function Confirmed(side: Side, s: seq<real>, w: nat): seq<Swing> {
    if |s| == 0 then [] else Confirmed(side, s[..|s| - 1], w) + Confirms(side, s, w, |s| - 1)
  }

  lemma {:induction false} ConfirmsByPrefix(side: Side, s: seq<real>, w: nat, n: nat)
    requires 0 < n <= |s|
    ensures Confirms(side, s, w, n - 1) == Confirms(side, s[..n], w, n - 1)
  {
    assert forall j :: 0 <= j < n ==> s[..n][j] == s[j];
  }

  lemma {:induction false} ConfirmedNext(side: Side, s: seq<real>, w: nat, n: nat)
    requires n < |s|
    ensures Confirmed(side, s[..n + 1], w) == Confirmed(side, s[..n], w) + Confirms(side, s, w, n)
  {
    ConfirmsByPrefix(side, s, w, n + 1);
    assert s[..n + 1][..n] == s[..n];
  }

  /** The trimmed list of the whole frame's swings is the end of what the bars so far confirm. */
  lemma {:induction false} KeptIsLast(side: Side, s: seq<real>, w: nat, keep: nat, n: nat)
    requires n <= |s|
    ensures Kept(side, s, w, keep, n) == LastN(Confirmed(side, s[..n], w), keep)
  {
    if n > 0 {
      KeptIsLast(side, s, w, keep, n - 1);
      ConfirmedNext(side, s, w, n - 1);
      LastNAppend(Confirmed(side, s[..n - 1], w), Confirms(side, s, w, n - 1), keep);
    }
  }

  /** The list is, in order, exactly the swings of the whole frame with `w` of its first `n` bars after them. */
  ghost predicate Exactly(c: seq<Swing>, side: Side, s: seq<real>, w: nat, n: nat) {
    && (forall k :: 0 <= k < |c| ==> c[k].bar + w < n && IsSwing(side, s, w, c[k].bar) && c[k].value == s[c[k].bar])
    && (forall k, l :: 0 <= k < l < |c| ==> c[k].bar < c[l].bar)
    && (forall i: nat :: i + w < n && IsSwing(side, s, w, i) ==> Swing(i, s[i]) in c)
  }

  lemma {:induction false} ExactlyAppend(c: seq<Swing>, x: Swing, side: Side, s: seq<real>, w: nat, n: nat)
    requires 0 < n <= |s| && Exactly(c, side, s, w, n - 1)
    requires x.bar + w == n - 1 && IsSwing(side, s, w, x.bar) && x.value == s[x.bar]
    ensures Exactly(c + [x], side, s, w, n)
  {
    var d := c + [x];
    forall k | 0 <= k < |d|
      ensures d[k].bar + w < n && IsSwing(side, s, w, d[k].bar) && d[k].value == s[d[k].bar]
    {
      assert k < |c| ==> d[k] == c[k];
    }
    forall k, l | 0 <= k < l < |d| ensures d[k].bar < d[l].bar {
      assert d[k] == c[k] && (l < |c| ==> d[l] == c[l]);
    }
    assert d[|c|] == x;
    forall i: nat | i + w < n && IsSwing(side, s, w, i) ensures Swing(i, s[i]) in d {
      assert i + w < n - 1 ==> Swing(i, s[i]) in c;
    }
  }

  /** One more bar: `d` is `c` and what the bar confirms. */
  lemma {:induction false} ExactlyNext(c: seq<Swing>, d: seq<Swing>, side: Side, s: seq<real>, w: nat, n: nat)
    requires 0 < n <= |s| && Exactly(c, side, s, w, n - 1) && d == c + Confirms(side, s, w, n - 1)
    ensures Exactly(d, side, s, w, n)
  {
    if IsSwing(side, s, w, n - 1 - w) {
      ExactlyAppend(c, Swing(n - 1 - w, s[n - 1 - w]), side, s, w, n);
    } else {
      assert d == c;
    }
  }

  /**
   After `n` bars the confirmed swings are, in order, exactly the swings of the whole frame that
   have `w` of those bars after them: none is known early, none is missed.
   */
  lemma {:induction false} ConfirmedExactly(side: Side, s: seq<real>, w: nat, n: nat)
    requires n <= |s|
    ensures Exactly(Confirmed(side, s[..n], w), side, s, w, n)
  {
    if n > 0 {
      ConfirmedExactly(side, s, w, n - 1);
      ConfirmedNext(side, s, w, n - 1);
      ExactlyNext(Confirmed(side, s[..n - 1], w), Confirmed(side, s[..n], w), side, s, w, n);
    }
  }

  // ---- What is confirmed, from the series alone -----------------------------------

  /** The list is, in order, exactly the peaks of the frame with `w` bars up to bar `i` after them. */
  ghost predicate AllPeaks(c: seq<Swing>, s: seq<real>, w: nat, i: nat) {
    && (forall k :: 0 <= k < |c| ==> c[k].bar + w <= i && Peak(s, w, c[k].bar) && c[k].value == s[c[k].bar])
    && (forall k, l :: 0 <= k < l < |c| ==> c[k].bar < c[l].bar)
    && (forall j: nat :: j + w <= i && Peak(s, w, j) ==> Swing(j, s[j]) in c)
  }

  /** The same of the valleys. */
  ghost predicate AllValleys(c: seq<Swing>, s: seq<real>, w: nat, i: nat) {
    && (forall k :: 0 <= k < |c| ==> c[k].bar + w <= i && Valley(s, w, c[k].bar) && c[k].value == s[c[k].bar])
    && (forall k, l :: 0 <= k < l < |c| ==> c[k].bar < c[l].bar)
    && (forall j: nat :: j + w <= i && Valley(s, w, j) ==> Swing(j, s[j]) in c)
  }

  lemma {:induction false} AllConfirmed(s: seq<real>, w: nat, i: nat)
    requires i < |s|
    ensures AllPeaks(Confirmed(High, s[..i + 1], w), s, w, i)
    ensures AllValleys(Confirmed(Low, s[..i + 1], w), s, w, i)
  {
    ConfirmedExactly(High, s, w, i + 1);
    ConfirmedExactly(Low, s, w, i + 1);
    forall j: int ensures IsSwing(High, s, w, j) <==> Peak(s, w, j) {
      SwingMeans(s, w, j);
    }
    forall j: int ensures IsSwing(Low, s, w, j) <==> Valley(s, w, j) {
      SwingMeans(s, w, j);
    }
  }

  /** The newest bar, with `w` bars up to bar `i` after it, that is strictly below all others around it. */
  predicate NewestValley(s: seq<real>, w: nat, i: nat, bar: nat) {
    bar + w <= i && Valley(s, w, bar) && forall j :: bar < j <= i - w ==> !Valley(s, w, j)
  }

  lemma {:induction false} LastIsNewest(c: seq<Swing>, s: seq<real>, w: nat, i: nat, bar: nat)
    requires AllValleys(c, s, w, i)
    ensures NewestValley(s, w, i, bar) <==> |c| > 0 && bar == c[|c| - 1].bar
    ensures |c| > 0 ==> c[|c| - 1].bar < |s| && c[|c| - 1].value == s[c[|c| - 1].bar]
  {
    if |c| > 0 {
      assert forall x :: x in c ==> x.bar <= c[|c| - 1].bar;
    }
    if NewestValley(s, w, i, bar) {
      assert Swing(bar, s[bar]) in c;
    }
  }

  // ---- Ascending swings ---------------------------------------------------------

  predicate Ascending(points: seq<Swing>) {
    forall j :: 0 < j < |points| ==> points[j].value > points[j - 1].value
  }

  /** How many times in a row the list ends by ascending. */
  function Run(points: seq<Swing>): nat {
    var n := |points| - 1;
    if n < 1 || points[n].value <= points[n - 1].value then 0 else 1 + Run(points[..n])
  }

  /** The last `count` entries; a count of zero takes the whole list. */
  function Slice(points: seq<Swing>, count: nat): seq<Swing> {
    if count == 0 then points else LastN(points, count)
  }

  function Least(a: nat, b: nat): nat {
    if a <= b then a else b
  }

  lemma {:induction false} AscendingIsRun(points: seq<Swing>)
    ensures Run(points) <= |points| && (|points| > 0 ==> Run(points) < |points|)
    ensures Ascending(points) <==> Run(points) + 1 >= |points|
  {
    var n := |points| - 1;
    if n >= 1 {
      AscendingIsRun(points[..n]);
      assert forall j :: 0 <= j < n ==> points[..n][j] == points[j];
    }
  }

  /** The last `k` steps of the list all go up. */
  predicate Rises(points: seq<Swing>, k: nat) {
    forall j :: 0 < j < |points| && |points| - k <= j ==> points[j].value > points[j - 1].value
  }

  lemma {:induction false} RunIsRising(points: seq<Swing>, k: nat)
    requires k == 0 || k < |points|
    ensures Run(points) >= k <==> Rises(points, k)
  {
    var n := |points| - 1;
    if k > 0 {
      RunIsRising(points[..n], k - 1);
      assert forall j :: 0 <= j < n ==> points[..n][j] == points[j];
      assert Rises(points, k) <==> points[n].value > points[n - 1].value && Rises(points[..n], k - 1);
    }
  }

  /** The untrimmed run is long enough for `needed` entries exactly when the last `needed` of them rise. */
  lemma {:induction false} LongRunRises(points: seq<Swing>, needed: nat)
    requires needed > 0
    ensures Run(points) + 1 >= Least(needed, |points|) <==> Rises(points, needed - 1)
  {
    AscendingIsRun(points);
    if |points| > 0 {
      RunIsRising(points, Least(needed, |points|) - 1);
    }
  }

  /** Trimming a list cuts its run short at the number of steps that fit in what is kept. */
  lemma {:induction false} TrimmedRun(points: seq<Swing>, keep: nat)
    requires keep >= 1
    ensures Run(LastN(points, keep)) == Least(Run(points), keep - 1)
  {
    if |points| <= keep {
      AscendingIsRun(points);
    } else if keep >= 2 {
      var n := |points| - 1;
      LastNInit(points, keep);
      LastNInit(points[..n], keep - 1);
      assert LastN(points, keep)[keep - 2] == LastN(points[..n], keep - 1)[keep - 2];
      TrimmedRun(points[..n], keep - 1);
    }
  }

  /** How many entries a slice looks at when at most `keep` are kept. */
  function Steps(count: nat, keep: nat): nat {
    if count == 0 then keep else count
  }

  /** The last `count` entries of the kept list ascend exactly when the untrimmed run is long enough. */
  lemma {:induction false} SliceAscends(points: seq<Swing>, keep: nat, count: nat)
    requires 1 <= keep && count <= keep
    ensures Ascending(Slice(LastN(points, keep), count)) <==> Run(points) + 1 >= Least(Steps(count, keep), |points|)
  {
    var needed := Steps(count, keep);
    assert Slice(LastN(points, keep), count) == LastN(points, needed);
    TrimmedRun(points, needed);
    AscendingIsRun(LastN(points, needed));
    AscendingIsRun(points);
  }

  /** Counting back over the kept list gives the run. */
  method CountRun(points: seq<Swing>) returns (strength: nat)
    ensures strength == Run(points)
  {
    strength := 0;
    var j := |points| - 1;
    assert points[..|points|] == points;
    while j > 0
      invariant -1 <= j < |points|
      invariant Run(points) == strength + Run(points[..j + 1])
      decreases j
    {
      assert points[..j + 1][..j] == points[..j];
      if points[j].value <= points[j - 1].value {
        break;
      }
      strength, j := strength + 1, j - 1;
    }
  }
}
