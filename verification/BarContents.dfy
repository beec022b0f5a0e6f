/**
 What a completed bar says, on the raw bars alone (ib_trader/bots/bar_aggregator.py): which of them it is made of, and
 their first open, highest high, lowest low, last close and total volume.
 */
module BarContents {
  import opened Wrappers
  import opened Reals
  import opened BarAggregation

  /** A raw bar that is newer than everything before it; any other is ignored. */
  predicate IsNews(raws: seq<Raw>, i: nat)
    requires i < |raws|
  {
    forall j :: 0 <= j < i ==> raws[j].ts < raws[i].ts
  }

  /**
   The slot that starts at second `slot` and is `target` seconds long has a timestamp, in microseconds, whose
   whole seconds, truncated toward zero, fall in it.
   */
  predicate Covers(slot: int, target: int, ts: int) {
    if ts >= 0 then slot * 1_000_000 <= ts < (slot + target) * 1_000_000
    else (slot - 1) * 1_000_000 < ts <= (slot + target - 1) * 1_000_000
  }

  /** The raw bars of a slot that count. */
  function Of(raws: seq<Raw>, slot: int, target: int): seq<Raw> {
    if |raws| == 0 then []
    else
      var n := |raws| - 1;
      var before := Of(raws[..n], slot, target);
      if IsNews(raws, n) && Covers(slot, target, raws[n].ts) then before + [raws[n]] else before
  }

  function TotalVolume(own: seq<Raw>): real {
    if |own| == 0 then 0.0 else TotalVolume(own[..|own| - 1]) + own[|own| - 1].volume
  }

  /** The bar sums up the raw bars. */
  ghost predicate SumsUp(bar: Bar, own: seq<Raw>) {
    && |own| > 0 && bar.open == own[0].open && bar.close == own[|own| - 1].close && bar.volume == TotalVolume(own)
    && (forall i :: 0 <= i < |own| ==> bar.low <= own[i].low && own[i].high <= bar.high)
    && (exists i :: 0 <= i < |own| && own[i].high == bar.high)
    && (exists i :: 0 <= i < |own| && own[i].low == bar.low)
  }

  // ---- Slots and seconds ------------------------------------------------------------------

  lemma {:induction false} SecondsMean(ts: int, s: int)
    ensures EpochSeconds(ts) >= s <==> if ts >= 0 then s * 1_000_000 <= ts else (s - 1) * 1_000_000 < ts
  {
  }

  lemma {:induction false} MultipleInSlot(slot: int, start: int, x: int, target: int)
    requires target > 0 && slot % target == 0 && start % target == 0 && start <= x < start + target
    ensures slot == start <==> slot <= x < slot + target
  {
    if slot <= x < slot + target {
      var k := slot / target - start / target;
      assert slot - start == k * target;
      if k > 0 {
        MulMonotone(1, k, target);
      } else if k < 0 {
        MulMonotone(k, -1, target);
      }
    }
  }

  lemma {:induction false} StartCovers(ts: int, target: int, slot: int)
    requires target > 0 && slot % target == 0
    ensures SlotStart(ts, target) == slot <==> Covers(slot, target, ts)
  {
    SlotStartAligned(ts, target);
    MultipleInSlot(slot, SlotStart(ts, target), EpochSeconds(ts), target);
    SecondsMean(ts, slot);
    SecondsMean(ts, slot + target);
  }

  // ---- What is accepted ---------------------------------------------------------------------

  lemma {:induction false} NewestIsMaximum(raws: seq<Raw>)
    ensures var newest := Newest(None, Accepted(None, raws));
            && (newest.Some? <==> |raws| > 0)
            && (forall j :: 0 <= j < |raws| ==> raws[j].ts <= newest.value)
            && (|raws| > 0 ==> exists j :: 0 <= j < |raws| && raws[j].ts == newest.value)
  {
    if |raws| > 0 {
      var n := |raws| - 1;
      NewestIsMaximum(raws[..n]);
      assert forall j :: 0 <= j < n ==> raws[..n][j] == raws[j];
      var a := Accepted(None, raws[..n]);
      if Seen(Newest(None, a), raws[n].ts) {
        var j :| 0 <= j < n && raws[..n][j].ts == Newest(None, a).value;
        assert raws[j].ts == Newest(None, a).value;
      } else {
        assert raws[n].ts == Newest(None, a + [raws[n]]).value;
      }
    }
  }

  lemma {:induction false} AcceptsNews(raws: seq<Raw>)
    requires |raws| > 0
    ensures var n := |raws| - 1;
            var a := Accepted(None, raws[..n]);
            Accepted(None, raws) == if IsNews(raws, n) then a + [raws[n]] else a
  {
    var n := |raws| - 1;
    NewestIsMaximum(raws[..n]);
    assert forall j :: 0 <= j < n ==> raws[..n][j] == raws[j];
    var newest := Newest(None, Accepted(None, raws[..n]));
    if n > 0 {
      var j :| 0 <= j < n && raws[..n][j].ts == newest.value;
      assert raws[j].ts == newest.value;
    }
  }

  /** The raw bars of a slot that count are the accepted ones that fall in it. */
  lemma {:induction false} OfIsInSlot(raws: seq<Raw>, slot: int, target: int)
    requires target > 0 && slot % target == 0
    ensures Of(raws, slot, target) == InSlot(Accepted(None, raws), slot, SlotOf(target))
  {
    if |raws| > 0 {
      var n := |raws| - 1;
      var a := Accepted(None, raws[..n]);
      OfIsInSlot(raws[..n], slot, target);
      AcceptsNews(raws);
      StartCovers(raws[n].ts, target, slot);
      assert (a + [raws[n]])[..|a|] == a;
    }
  }

  lemma {:induction false} NewsIsAccepted(raws: seq<Raw>, i: nat)
    requires i < |raws| && IsNews(raws, i)
    ensures raws[i] in Accepted(None, raws)
  {
    var n := |raws| - 1;
    AcceptsNews(raws);
    if i < n {
      NewsIsAccepted(raws[..n], i);
    }
  }

  // ---- What a fold says -----------------------------------------------------------------------

  lemma {:induction false} HighestIs(own: seq<Raw>)
    requires |own| > 0
    ensures forall i :: 0 <= i < |own| ==> own[i].high <= Highest(own)
    ensures exists i :: 0 <= i < |own| && own[i].high == Highest(own)
  {
    var n := |own| - 1;
    if n == 0 {
      assert own[0].high == Highest(own);
    } else {
      HighestIs(own[..n]);
      var i :| 0 <= i < n && own[..n][i].high == Highest(own[..n]);
      assert forall j :: 0 <= j < n ==> own[..n][j] == own[j];
      assert own[if own[n].high >= own[i].high then n else i].high == Highest(own);
    }
  }

  lemma {:induction false} LowestIs(own: seq<Raw>)
    requires |own| > 0
    ensures forall i :: 0 <= i < |own| ==> Lowest(own) <= own[i].low
    ensures exists i :: 0 <= i < |own| && own[i].low == Lowest(own)
  {
    var n := |own| - 1;
    if n == 0 {
      assert own[0].low == Lowest(own);
    } else {
      LowestIs(own[..n]);
      var i :| 0 <= i < n && own[..n][i].low == Lowest(own[..n]);
      assert forall j :: 0 <= j < n ==> own[..n][j] == own[j];
      assert own[if own[n].low <= own[i].low then n else i].low == Lowest(own);
    }
  }

  lemma {:induction false} VolumeIs(own: seq<Raw>)
    ensures Volume(own) == TotalVolume(own)
  {
    if |own| > 0 {
      VolumeIs(own[..|own| - 1]);
    }
  }

  lemma {:induction false} FoldSumsUp(own: seq<Raw>, slot: int)
    requires |own| > 0
    ensures SumsUp(FoldSlot(own, slot), own)
  {
    HighestIs(own);
    LowestIs(own);
    VolumeIs(own);
  }

  // ---- The bars of a run ------------------------------------------------------------------------

  lemma {:induction false} BarSumsUp(raws: seq<Raw>, target: int, k: nat)
    requires target > 0 && k < |Group(Accepted(None, raws), SlotOf(target))|
    ensures var bar := Group(Accepted(None, raws), SlotOf(target))[k];
            bar.slot % target == 0 && SumsUp(bar, Of(raws, bar.slot, target))
  {
    var a, slotOf := Accepted(None, raws), SlotOf(target);
    GroupAt(a, slotOf, k);
    SlotsAreStarts(a, target);
    AcceptedNewer(None, raws);
    NewerInOrder(a, target);
    SlotsIncrease(a, slotOf);
    OfIsInSlot(raws, Slots(a, slotOf)[k], target);
    FoldSumsUp(InSlot(a, Slots(a, slotOf)[k], slotOf), Slots(a, slotOf)[k]);
  }

  lemma {:induction false} HasSlot(a: seq<Raw>, slotOf: Raw -> int, raw: Raw)
    requires raw in a
    ensures slotOf(raw) in Slots(a, slotOf)
  {
    var n := |a| - 1;
    assert a == a[..n] + [a[n]];
    if raw != a[n] {
      HasSlot(a[..n], slotOf, raw);
    }
  }

  /**
   After any raw bars: each bar returned, and the partial one last, starts at a multiple of the target size and
   sums up exactly the raw bars of its slot that count, and every raw bar that counts is in the slot of one.
   */
  lemma {:induction false} BarsSumUpSlots(target: int, lookback: nat, raws: seq<Raw>)
    requires target > 0
    ensures var r := Ingest(Fresh(target, lookback), raws);
            var bars := r.bars + CurrentBars(r.state);
            && (forall k :: 0 <= k < |bars| ==>
                  bars[k].slot % target == 0 && SumsUp(bars[k], Of(raws, bars[k].slot, target)))
            && (forall i :: 0 <= i < |raws| && IsNews(raws, i) ==>
                  exists k :: 0 <= k < |bars| && Covers(bars[k].slot, target, raws[i].ts))
  {
    var a, slotOf := Accepted(None, raws), SlotOf(target);
    var bars := Group(a, slotOf);
    IngestRefines(target, lookback, raws);
    forall k | 0 <= k < |bars| ensures bars[k].slot % target == 0 && SumsUp(bars[k], Of(raws, bars[k].slot, target)) {
      BarSumsUp(raws, target, k);
    }
    forall i | 0 <= i < |raws| && IsNews(raws, i)
      ensures exists k :: 0 <= k < |bars| && Covers(bars[k].slot, target, raws[i].ts)
    {
      NewsIsAccepted(raws, i);
      HasSlot(a, slotOf, raws[i]);
      var k :| 0 <= k < |Slots(a, slotOf)| && Slots(a, slotOf)[k] == slotOf(raws[i]);
      GroupAt(a, slotOf, k);
      SlotStartAligned(raws[i].ts, target);
      StartCovers(raws[i].ts, target, bars[k].slot);
    }
  }
}
