/**
 Aggregation of raw 5-second bars into slots of a target size (ib_trader/bots/bar_aggregator.py).
 Timestamps are microseconds since the epoch, slot starts are seconds since the epoch.
 */
module BarAggregation {
  import opened Wrappers
  import opened Reals
  import opened Tails

  datatype Raw = Raw(ts: int, open: real, high: real, low: real, close: real, volume: real)

  datatype Bar = Bar(slot: int, open: real, high: real, low: real, close: real, volume: real)

  /** The aggregator's state, which is also what a snapshot holds. */
  datatype State = State(completed: seq<Bar>, current: Option<Bar>, ticks: nat, lastSeen: Option<int>,
                         total: nat, target: int, lookback: nat)

  /** A state, and the bars that were completed on the way to it. */
  datatype Ingested = Ingested(state: State, bars: seq<Bar>)

  const MICROS := 1_000_000

  /** Whole seconds of a timestamp, truncated toward zero. */
  function EpochSeconds(ts: int): int {
    if ts >= 0 then ts / MICROS else -((-ts) / MICROS)
  }

  /** Start of the aligned slot a timestamp falls in. */
  function SlotStart(ts: int, target: int): int
    requires target > 0
  {
    EpochSeconds(ts) / target * target
  }

  function Start(raw: Raw, slot: int): Bar {
    Bar(slot, raw.open, raw.high, raw.low, raw.close, raw.volume)
  }

  function Extend(bar: Bar, raw: Raw): Bar {
    bar.(high := Max(bar.high, raw.high), low := Min(bar.low, raw.low),
         close := raw.close, volume := bar.volume + raw.volume)
  }

  predicate Seen(lastSeen: Option<int>, ts: int) {
    lastSeen.Some? && ts <= lastSeen.value
  }

  /** One raw bar: skipped when not newer, else added to its slot's bar, finalizing the previous one. */
  function Step(st: State, raw: Raw): Ingested
    requires st.target > 0
  {
    if Seen(st.lastSeen, raw.ts) then Ingested(st, [])
    else
      var slot, next := SlotStart(raw.ts, st.target), st.(lastSeen := Some(raw.ts));
      match st.current
      case None => Ingested(next.(current := Some(Start(raw, slot)), ticks := 1), [])
      case Some(bar) =>
        if bar.slot == slot
        then Ingested(next.(current := Some(Extend(bar, raw)), ticks := st.ticks + 1), [])
        else Ingested(next.(completed := LastN(st.completed + [bar], st.lookback), total := st.total + 1,
                            current := Some(Start(raw, slot)), ticks := 1), [bar])
  }

  function Ingest(st: State, raws: seq<Raw>): (r: Ingested)
    requires st.target > 0
    ensures r.state.target == st.target && r.state.lookback == st.lookback
  {
    if |raws| == 0 then Ingested(st, [])
    else
      var before := Ingest(st, raws[..|raws| - 1]);
      var last := Step(before.state, raws[|raws| - 1]);
      Ingested(last.state, before.bars + last.bars)
  }

  function Fresh(target: int, lookback: nat): State {
    State([], None, 0, None, 0, target, lookback)
  }

  /** A snapshot restored, under the current lookback when one is given. */
  function Restored(data: State, lookbackOverride: Option<nat>): State {
    var lookback := lookbackOverride.GetOr(data.lookback);
    data.(lookback := lookback, completed := LastN(data.completed, lookback))
  }

  /** The ring buffer, once it is full. */
  function Window(st: State): Option<seq<Bar>> {
    if |st.completed| < st.lookback then None else Some(st.completed)
  }

  // ---- The aggregator ---------------------------------------------------------

  class BarAggregator {
    const target: int
    const lookback: nat
    var completed: seq<Bar>
    var current: Option<Bar>
    var ticks: nat
    var lastSeen: Option<int>
    var total: nat

    ghost predicate Valid()
      reads this
    {
      target > 0 && |completed| <= lookback
    }

    function Snapshot(): State
      reads this
    {
      State(completed, current, ticks, lastSeen, total, target, lookback)
    }

    constructor (target: int, lookback: nat)
      requires target > 0
      ensures Valid() && Snapshot() == Fresh(target, lookback)
    {
      this.target, this.lookback := target, lookback;
      completed, current, ticks, lastSeen, total := [], None, 0, None, 0;
    }

    /** Rebuild from a snapshot, bar by bar into the (possibly resized) ring buffer. */
    constructor FromSnapshot(data: State, lookbackOverride: Option<nat>)
      requires data.target > 0
      ensures Valid() && Snapshot() == Restored(data, lookbackOverride)
    {
      target, lookback := data.target, lookbackOverride.GetOr(data.lookback);
      completed := [];
      current, ticks, lastSeen, total := data.current, data.ticks, data.lastSeen, data.total;
      new;
      for i := 0 to |data.completed|
        invariant completed == LastN(data.completed[..i], lookback)
        invariant current == data.current && ticks == data.ticks && lastSeen == data.lastSeen && total == data.total
      {
        LastNOneMore(data.completed, i, lookback);
        completed := LastN(completed + [data.completed[i]], lookback);
      }
      assert data.completed[..|data.completed|] == data.completed;
    }

    /** Ingest new raw bars; the result is the bars they completed. */
    method AddBars(raws: seq<Raw>) returns (bars: seq<Bar>)
      requires Valid()
      modifies this
      ensures Valid()
      ensures Ingested(Snapshot(), bars) == Ingest(old(Snapshot()), raws)
    {
      bars := [];
      for i := 0 to |raws|
        invariant Valid()
        invariant Ingested(Snapshot(), bars) == Ingest(old(Snapshot()), raws[..i])
      {
        assert raws[..i + 1][..i] == raws[..i];
        var completed := AddBar(raws[i]);
        bars := bars + completed;
      }
      assert raws[..|raws|] == raws;
    }

    /** One raw bar; the result is the bar it completed, if any. */
    method AddBar(raw: Raw) returns (bars: seq<Bar>)
      requires Valid()
      modifies this
      ensures Valid()
      ensures Ingested(Snapshot(), bars) == Step(old(Snapshot()), raw)
    {
      bars := [];
      if lastSeen.Some? && raw.ts <= lastSeen.value {
        return;
      }
      lastSeen := Some(raw.ts);
      var slot := SlotStart(raw.ts, target);
      if current.Some? && current.value.slot != slot {
        completed := LastN(completed + [current.value], lookback);
        total := total + 1;
        bars := [current.value];
        current, ticks := None, 0;
      }
      if current.None? {
        current, ticks := Some(Bar(slot, raw.open, raw.high, raw.low, raw.close, raw.volume)), 1;
      } else {
        var bar := current.value;
        current := Some(bar.(high := Max(bar.high, raw.high), low := Min(bar.low, raw.low),
                             close := raw.close, volume := bar.volume + raw.volume));
        ticks := ticks + 1;
      }
    }

    /** The full ring buffer, or None until it is full. */
    method GetBarWindow() returns (window: Option<seq<Bar>>)
      requires Valid()
      ensures window == Window(Snapshot()) && (window.Some? ==> |window.value| == lookback)
    {
      if |completed| < lookback {
        return None;
      }
      return Some(completed);
    }
  }

  // ---- The batch meaning --------------------------------------------------------

  /** The raw bars that are strictly newer than everything before them. */
  function Accepted(lastSeen: Option<int>, raws: seq<Raw>): seq<Raw> {
    if |raws| == 0 then []
    else
      var before, last := Accepted(lastSeen, raws[..|raws| - 1]), raws[|raws| - 1];
      if Seen(Newest(lastSeen, before), last.ts) then before else before + [last]
  }

  function Newest(lastSeen: Option<int>, accepted: seq<Raw>): Option<int> {
    if |accepted| == 0 then lastSeen else Some(accepted[|accepted| - 1].ts)
  }

  /** Which slot a raw bar falls in. */
  function SlotOf(target: int): Raw -> int
    requires target > 0
  {
    (raw: Raw) => SlotStart(raw.ts, target)
  }

  /** The raw bars that fall in one slot. */
  function InSlot(raws: seq<Raw>, slot: int, slotOf: Raw -> int): seq<Raw> {
    if |raws| == 0 then []
    else
      var before, last := InSlot(raws[..|raws| - 1], slot, slotOf), raws[|raws| - 1];
      if slotOf(last) == slot then before + [last] else before
  }

  function Highest(raws: seq<Raw>): real
    requires |raws| > 0
  {
    if |raws| == 1 then raws[0].high else Max(Highest(raws[..|raws| - 1]), raws[|raws| - 1].high)
  }

  function Lowest(raws: seq<Raw>): real
    requires |raws| > 0
  {
    if |raws| == 1 then raws[0].low else Min(Lowest(raws[..|raws| - 1]), raws[|raws| - 1].low)
  }

  function Volume(raws: seq<Raw>): real {
    if |raws| == 0 then 0.0 else Volume(raws[..|raws| - 1]) + raws[|raws| - 1].volume
  }

  /** The bar of a slot: open of the first, highest, lowest, close of the last, total volume. */
  function FoldSlot(raws: seq<Raw>, slot: int): Bar {
    if |raws| == 0 then Bar(slot, 0.0, 0.0, 0.0, 0.0, 0.0)
    else Bar(slot, raws[0].open, Highest(raws), Lowest(raws), raws[|raws| - 1].close, Volume(raws))
  }

  /** The distinct slots of the raw bars, in order of first appearance. */
  function Slots(raws: seq<Raw>, slotOf: Raw -> int): seq<int> {
    if |raws| == 0 then []
    else
      var before, slot := Slots(raws[..|raws| - 1], slotOf), slotOf(raws[|raws| - 1]);
      if slot in before then before else before + [slot]
  }

  /** Group the raw bars by slot and fold each group. */
  function Group(raws: seq<Raw>, slotOf: Raw -> int): seq<Bar> {
    var slots := Slots(raws, slotOf);
    seq(|slots|, i requires 0 <= i < |slots| => FoldSlot(InSlot(raws, slots[i], slotOf), slots[i]))
  }

  function VolumeOf(bars: seq<Bar>): real {
    if |bars| == 0 then 0.0 else VolumeOf(bars[..|bars| - 1]) + bars[|bars| - 1].volume
  }

  function CurrentBars(st: State): seq<Bar> {
    if st.current.Some? then [st.current.value] else []
  }

  ghost predicate Newer(raws: seq<Raw>) {
    forall i, j :: 0 <= i < j < |raws| ==> raws[i].ts < raws[j].ts
  }

  ghost predicate Increasing(slots: seq<int>) {
    forall i, j :: 0 <= i < j < |slots| ==> slots[i] < slots[j]
  }

  ghost predicate Ascending(bars: seq<Bar>) {
    forall i, j :: 0 <= i < j < |bars| ==> bars[i].slot < bars[j].slot
  }

  ghost predicate SlotsInOrder(raws: seq<Raw>, slotOf: Raw -> int) {
    forall i, j :: 0 <= i < j < |raws| ==> slotOf(raws[i]) <= slotOf(raws[j])
  }

  // ---- Slot arithmetic -------------------------------------------------------------

  lemma {:induction false} MulMonotone(x: int, y: int, t: int)
    requires t > 0 && x <= y
    ensures x * t <= y * t
  {
  }

  lemma {:induction false} DivBounds(a: int, t: int)
    requires t > 0
    ensures a / t * t <= a < a / t * t + t
  {
  }

  lemma {:induction false} NoSmallMultiple(k: int, r: int, t: int)
    requires t > 0 && r == k * t && 0 <= r < t
    ensures k == 0
  {
    if k >= 1 {
      MulMonotone(1, k, t);
    } else if k <= -1 {
      MulMonotone(k, -1, t);
    }
  }

  lemma {:induction false} MultipleMod(p: int, t: int)
    requires t > 0
    ensures p * t % t == 0
  {
    var q, r := p * t / t, p * t % t;
    assert r == (p - q) * t;
    NoSmallMultiple(p - q, r, t);
  }

  lemma {:induction false} DivMonotone(a: int, b: int, t: int)
    requires t > 0 && a <= b
    ensures a / t <= b / t
  {
    DivBounds(a, t);
    DivBounds(b, t);
    if a / t > b / t {
      MulMonotone(b / t + 1, a / t, t);
    }
  }

  lemma {:induction false} SlotStartMonotone(a: int, b: int, target: int)
    requires target > 0 && a <= b
    ensures SlotStart(a, target) <= SlotStart(b, target)
  {
    DivMonotone(EpochSeconds(a), EpochSeconds(b), target);
    MulMonotone(EpochSeconds(a) / target, EpochSeconds(b) / target, target);
  }

  lemma {:induction false} SlotStartAligned(ts: int, target: int)
    requires target > 0
    ensures SlotStart(ts, target) % target == 0
    ensures SlotStart(ts, target) <= EpochSeconds(ts) < SlotStart(ts, target) + target
  {
    MultipleMod(EpochSeconds(ts) / target, target);
    DivBounds(EpochSeconds(ts), target);
  }

  lemma {:induction false} NewerInOrder(raws: seq<Raw>, target: int)
    requires target > 0 && Newer(raws)
    ensures SlotsInOrder(raws, SlotOf(target))
  {
    forall i, j | 0 <= i < j < |raws| ensures SlotOf(target)(raws[i]) <= SlotOf(target)(raws[j]) {
      SlotStartMonotone(raws[i].ts, raws[j].ts, target);
    }
  }

  // ---- Grouping, one raw bar at a time -----------------------------------------------

  lemma {:induction false} AcceptedNewer(lastSeen: Option<int>, raws: seq<Raw>)
    ensures var a := Accepted(lastSeen, raws);
            && Newer(a)
            && (forall i :: 0 <= i < |a| ==> !Seen(lastSeen, a[i].ts))
  {
    if |raws| > 0 {
      var a, raw := Accepted(lastSeen, raws[..|raws| - 1]), raws[|raws| - 1];
      AcceptedNewer(lastSeen, raws[..|raws| - 1]);
      if !Seen(Newest(lastSeen, a), raw.ts) {
        OneMoreNewer(lastSeen, a, raw);
      }
    }
  }

  lemma {:induction false} OneMoreNewer(lastSeen: Option<int>, a: seq<Raw>, raw: Raw)
    requires Newer(a) && (forall i :: 0 <= i < |a| ==> !Seen(lastSeen, a[i].ts)) && !Seen(Newest(lastSeen, a), raw.ts)
    ensures var b := a + [raw]; Newer(b) && forall i :: 0 <= i < |b| ==> !Seen(lastSeen, b[i].ts)
  {
  }

  lemma {:induction false} SlotsIncrease(raws: seq<Raw>, slotOf: Raw -> int)
    requires SlotsInOrder(raws, slotOf)
    ensures var slots := Slots(raws, slotOf);
            && Increasing(slots)
            && (|raws| > 0 ==> |slots| > 0 && slots[|slots| - 1] == slotOf(raws[|raws| - 1]))
            && (forall i :: 0 <= i < |slots| ==> |InSlot(raws, slots[i], slotOf)| > 0)
  {
    if |raws| > 0 {
      SlotsIncrease(raws[..|raws| - 1], slotOf);
    }
  }

  lemma {:induction false} Appended(raws: seq<Raw>, raw: Raw, slot: int, slotOf: Raw -> int)
    ensures InSlot(raws + [raw], slot, slotOf)
         == if slotOf(raw) == slot then InSlot(raws, slot, slotOf) + [raw] else InSlot(raws, slot, slotOf)
    ensures Slots(raws + [raw], slotOf)
         == if slotOf(raw) in Slots(raws, slotOf) then Slots(raws, slotOf) else Slots(raws, slotOf) + [slotOf(raw)]
    ensures slot !in Slots(raws, slotOf) ==> InSlot(raws, slot, slotOf) == []
  {
    assert (raws + [raw])[..|raws|] == raws;
    EmptySlot(raws, slot, slotOf);
  }

  lemma {:induction false} EmptySlot(raws: seq<Raw>, slot: int, slotOf: Raw -> int)
    ensures slot !in Slots(raws, slotOf) ==> InSlot(raws, slot, slotOf) == []
  {
    if |raws| > 0 {
      EmptySlot(raws[..|raws| - 1], slot, slotOf);
    }
  }

  lemma {:induction false} FoldAppended(raws: seq<Raw>, raw: Raw, slot: int)
    ensures FoldSlot(raws + [raw], slot)
         == if |raws| == 0 then Start(raw, slot) else Extend(FoldSlot(raws, slot), raw)
  {
    var all := raws + [raw];
    assert all[..|raws|] == raws && all[|raws|] == raw && |all| == |raws| + 1;
    assert Volume(all) == Volume(raws) + raw.volume;
    if |raws| > 0 {
      assert Highest(all) == Max(Highest(raws), raw.high) && Lowest(all) == Min(Lowest(raws), raw.low);
    }
  }

  /** One raw bar's worth of change to a grouping: a bar appended, or the last bar extended. */
  function Regrouped(g: seq<Bar>, raw: Raw, slot: int): seq<Bar> {
    if |g| > 0 && g[|g| - 1].slot == slot then g[..|g| - 1] + [Extend(g[|g| - 1], raw)] else g + [Start(raw, slot)]
  }

  lemma {:induction false} GroupAt(raws: seq<Raw>, slotOf: Raw -> int, i: nat)
    requires i < |Slots(raws, slotOf)|
    ensures |Group(raws, slotOf)| == |Slots(raws, slotOf)|
    ensures var slot := Slots(raws, slotOf)[i];
            Group(raws, slotOf)[i] == FoldSlot(InSlot(raws, slot, slotOf), slot) && Group(raws, slotOf)[i].slot == slot
  {
  }

  lemma {:induction false} GroupElsewhere(raws: seq<Raw>, raw: Raw, slotOf: Raw -> int, i: nat)
    requires i < |Slots(raws, slotOf)| && Slots(raws, slotOf)[i] != slotOf(raw)
    ensures i < |Group(raws + [raw], slotOf)| && Group(raws + [raw], slotOf)[i] == Group(raws, slotOf)[i]
  {
    Appended(raws, raw, Slots(raws, slotOf)[i], slotOf);
    GroupAt(raws, slotOf, i);
    GroupAt(raws + [raw], slotOf, i);
  }

  lemma {:induction false} GroupHere(raws: seq<Raw>, raw: Raw, slotOf: Raw -> int, i: nat)
    requires i < |Slots(raws + [raw], slotOf)| && Slots(raws + [raw], slotOf)[i] == slotOf(raw)
    ensures Group(raws + [raw], slotOf)[i] == if |InSlot(raws, slotOf(raw), slotOf)| == 0 then Start(raw, slotOf(raw))
                                              else Extend(FoldSlot(InSlot(raws, slotOf(raw), slotOf), slotOf(raw)), raw)
  {
    Appended(raws, raw, slotOf(raw), slotOf);
    GroupAt(raws + [raw], slotOf, i);
    FoldAppended(InSlot(raws, slotOf(raw), slotOf), raw, slotOf(raw));
  }

  lemma {:induction false} IsRegrouped(g: seq<Bar>, h: seq<Bar>, n: nat, raw: Raw, slot: int)
    requires |h| == n + 1 && n <= |g| <= n + 1 && forall i :: 0 <= i < n ==> h[i] == g[i]
    requires |g| == n ==> h[n] == Start(raw, slot) && (n > 0 ==> g[n - 1].slot != slot)
    requires |g| == n + 1 ==> h[n] == Extend(g[n], raw) && g[n].slot == slot
    ensures h == Regrouped(g, raw, slot)
  {
    assert h == g[..n] + [h[n]];
    assert |g| == n ==> g[..n] == g;
  }

  lemma {:induction false} GroupLength(raws: seq<Raw>, slotOf: Raw -> int)
    ensures |Group(raws, slotOf)| == |Slots(raws, slotOf)|
  {
  }

  /** A raw bar of a new slot appends a bar to the grouping; one of the newest slot extends its last bar. */
  lemma {:induction false} GroupAppended(raws: seq<Raw>, raw: Raw, slotOf: Raw -> int)
    requires SlotsInOrder(raws + [raw], slotOf)
    ensures Group(raws + [raw], slotOf) == Regrouped(Group(raws, slotOf), raw, slotOf(raw))
  {
    var g, h, slot := Group(raws, slotOf), Group(raws + [raw], slotOf), slotOf(raw);
    var slots, slots' := Slots(raws, slotOf), Slots(raws + [raw], slotOf);
    GroupLength(raws, slotOf);
    GroupLength(raws + [raw], slotOf);
    NewestOrNew(raws, raw, slotOf);
    Appended(raws, raw, slot, slotOf);
    var n := |slots'| - 1;
    assert slots'[n] == slot;
    GroupHere(raws, raw, slotOf, n);
    if |slots| > 0 {
      GroupAt(raws, slotOf, |slots| - 1);
    }
    forall i | 0 <= i < n ensures h[i] == g[i] {
      assert slots[i] != slot;
      GroupElsewhere(raws, raw, slotOf, i);
    }
    IsRegrouped(g, h, n, raw, slot);
  }

  lemma {:induction false} NewestOrNew(raws: seq<Raw>, raw: Raw, slotOf: Raw -> int)
    requires SlotsInOrder(raws + [raw], slotOf)
    ensures var slots := Slots(raws, slotOf);
            && (slotOf(raw) in slots ==>
                  |slots| > 0 && slots[|slots| - 1] == slotOf(raw) && slotOf(raw) !in slots[..|slots| - 1])
            && (forall i :: 0 <= i < |slots| ==> |InSlot(raws, slots[i], slotOf)| > 0)
  {
    assert SlotsInOrder(raws, slotOf) by {
      assert forall i :: 0 <= i < |raws| ==> (raws + [raw])[i] == raws[i];
    }
    SlotsIncrease(raws, slotOf);
    if |raws| > 0 {
      assert (raws + [raw])[|raws| - 1] == raws[|raws| - 1] && (raws + [raw])[|raws|] == raw;
    }
  }

  // ---- Streaming refines grouping ------------------------------------------------------

  /** What a run of the aggregator has in common with the raw bars `a` it accepted. */
  ghost predicate Refines(r: Ingested, a: seq<Raw>)
    requires r.state.target > 0
  {
    var st, slotOf := r.state, SlotOf(r.state.target);
    && Newer(a)
    && r.bars + CurrentBars(st) == Group(a, slotOf)
    && st.completed == LastN(r.bars, st.lookback)
    && st.total == |r.bars|
    && st.lastSeen == Newest(None, a)
    && (st.current.Some? <==> |a| > 0)
    && (st.current.Some? ==> st.ticks == |InSlot(a, st.current.value.slot, slotOf)|)
  }

  lemma {:induction false} StepRegroups(before: Ingested, g: seq<Bar>, raw: Raw)
    requires before.state.target > 0 && !Seen(before.state.lastSeen, raw.ts)
    requires before.bars + CurrentBars(before.state) == g && (before.state.current.None? ==> before.bars == [])
    ensures var r := Step(before.state, raw);
            before.bars + r.bars + CurrentBars(r.state) == Regrouped(g, raw, SlotStart(raw.ts, before.state.target))
  {
    if before.state.current.Some? {
      assert g[|g| - 1] == before.state.current.value && g[..|g| - 1] == before.bars;
    }
  }

  lemma {:induction false} StepRing(before: Ingested, raw: Raw)
    requires before.state.target > 0
    requires before.state.completed == LastN(before.bars, before.state.lookback) && before.state.total == |before.bars|
    ensures var r := Step(before.state, raw);
            && r.state.completed == LastN(before.bars + r.bars, r.state.lookback)
            && r.state.total == |before.bars + r.bars|
  {
    if before.state.current.Some? {
      LastNAppend(before.bars, [before.state.current.value], before.state.lookback);
    }
    assert before.bars + [] == before.bars;
  }

  /** The count of raw bars in the partial bar, after one more. */
  lemma {:induction false} StepTicks(st: State, a: seq<Raw>, raw: Raw)
    requires st.target > 0 && !Seen(st.lastSeen, raw.ts) && SlotsInOrder(a + [raw], SlotOf(st.target))
    requires st.current.Some? <==> |a| > 0
    requires st.current.Some? ==> st.current.value.slot == SlotOf(st.target)(a[|a| - 1])
    requires st.current.Some? ==> st.ticks == |InSlot(a, st.current.value.slot, SlotOf(st.target))|
    ensures var r, slot := Step(st, raw).state, SlotStart(raw.ts, st.target);
            && r.current.Some? && r.current.value.slot == slot
            && r.ticks == |InSlot(a + [raw], slot, SlotOf(st.target))|
  {
    var slotOf := SlotOf(st.target);
    Appended(a, raw, slotOf(raw), slotOf);
    NewestOrNew(a, raw, slotOf);
    assert SlotsInOrder(a, slotOf) by {
      assert forall i :: 0 <= i < |a| ==> (a + [raw])[i] == a[i];
    }
    SlotsIncrease(a, slotOf);
  }

  lemma {:induction false} PartialSlot(r: Ingested, a: seq<Raw>)
    requires r.state.target > 0 && Refines(r, a) && |a| > 0
    ensures r.state.current.value.slot == SlotOf(r.state.target)(a[|a| - 1])
  {
    var slotOf := SlotOf(r.state.target);
    NewerInOrder(a, r.state.target);
    SlotsIncrease(a, slotOf);
    GroupAt(a, slotOf, |Slots(a, slotOf)| - 1);
    assert Group(a, slotOf)[|r.bars|] == r.state.current.value;
  }

  lemma {:induction false} StepRefines(before: Ingested, a: seq<Raw>, raw: Raw)
    requires before.state.target > 0 && Refines(before, a) && !Seen(before.state.lastSeen, raw.ts)
    ensures var r := Step(before.state, raw);
            r.state.target == before.state.target && Refines(Ingested(r.state, before.bars + r.bars), a + [raw])
  {
    var st := before.state;
    assert Newer(a + [raw]);
    NewerInOrder(a + [raw], st.target);
    if |a| == 0 {
      assert Group(a, SlotOf(st.target)) == [];
    } else {
      PartialSlot(before, a);
    }
    StepTicks(st, a, raw);
    StepRing(before, raw);
    StepRegroups(before, Group(a, SlotOf(st.target)), raw);
    GroupAppended(a, raw, SlotOf(st.target));
  }

  /**
   Streaming refines grouping: after any raw bars, the completed bars and the partial one are the
   accepted raw bars grouped by slot and folded, and the ring buffer is the last completed bars.
   */
  lemma {:induction false} IngestRefines(target: int, lookback: nat, raws: seq<Raw>)
    requires target > 0
    ensures Refines(Ingest(Fresh(target, lookback), raws), Accepted(None, raws))
  {
    if |raws| == 0 {
      NothingRefined(target, lookback);
    } else {
      var n := |raws| - 1;
      IngestRefines(target, lookback, raws[..n]);
      RefinesOn(Ingest(Fresh(target, lookback), raws[..n]), Accepted(None, raws[..n]), raws[n]);
    }
  }

  lemma {:induction false} NothingRefined(target: int, lookback: nat)
    requires target > 0
    ensures Refines(Ingested(Fresh(target, lookback), []), [])
  {
    assert Group([], SlotOf(target)) == [];
  }

  lemma {:induction false} RefinesOn(before: Ingested, a: seq<Raw>, raw: Raw)
    requires before.state.target > 0 && Refines(before, a)
    ensures var r := Step(before.state, raw);
            && r.state.target == before.state.target
            && Refines(Ingested(r.state, before.bars + r.bars), if Seen(Newest(None, a), raw.ts) then a else a + [raw])
  {
    if Seen(before.state.lastSeen, raw.ts) {
      assert before.bars + [] == before.bars;
    } else {
      StepRefines(before, a, raw);
    }
  }

  lemma {:induction false} VolumeSplits(bars: seq<Bar>, bar: Bar)
    ensures VolumeOf(bars + [bar]) == VolumeOf(bars) + bar.volume
  {
    assert (bars + [bar])[..|bars|] == bars;
  }

  lemma {:induction false} RegroupedVolume(g: seq<Bar>, raw: Raw, slot: int)
    ensures VolumeOf(Regrouped(g, raw, slot)) == VolumeOf(g) + raw.volume
  {
    if |g| > 0 && g[|g| - 1].slot == slot {
      assert g == g[..|g| - 1] + [g[|g| - 1]];
      VolumeSplits(g[..|g| - 1], g[|g| - 1]);
      VolumeSplits(g[..|g| - 1], Extend(g[|g| - 1], raw));
    } else {
      VolumeSplits(g, Start(raw, slot));
    }
  }

  lemma {:induction false} GroupVolume(raws: seq<Raw>, slotOf: Raw -> int)
    requires SlotsInOrder(raws, slotOf)
    ensures VolumeOf(Group(raws, slotOf)) == Volume(raws)
  {
    if |raws| > 0 {
      var n := |raws| - 1;
      assert raws == raws[..n] + [raws[n]];
      GroupVolume(raws[..n], slotOf);
      GroupAppended(raws[..n], raws[n], slotOf);
      RegroupedVolume(Group(raws[..n], slotOf), raws[n], slotOf(raws[n]));
    }
  }

  /**
   The bars of a run, with the partial one last, start at strictly increasing multiples of the target
   size, and together carry exactly the volume of the accepted raw bars.
   */
  lemma {:induction false} BarsAlignedAndConserved(target: int, lookback: nat, raws: seq<Raw>)
    requires target > 0
    ensures var r := Ingest(Fresh(target, lookback), raws);
            var bars := r.bars + CurrentBars(r.state);
            && Ascending(bars)
            && (forall i :: 0 <= i < |bars| ==> bars[i].slot % target == 0)
            && VolumeOf(bars) == Volume(Accepted(None, raws))
  {
    var a, slotOf := Accepted(None, raws), SlotOf(target);
    IngestRefines(target, lookback, raws);
    NewerInOrder(a, target);
    SlotsIncrease(a, slotOf);
    GroupVolume(a, slotOf);
    SlotsAreStarts(a, target);
    var bars := Group(a, slotOf);
    forall i | 0 <= i < |bars| ensures bars[i].slot % target == 0 {
      assert bars[i].slot == Slots(a, slotOf)[i];
    }
  }

  /** The grouping without its newest slot, which is still being built. */
  function Finished(raws: seq<Raw>, slotOf: Raw -> int): seq<Bar> {
    var g := Group(raws, slotOf);
    if |g| == 0 then [] else g[..|g| - 1]
  }

  /**
   The window is there exactly when the accepted raw bars have finished `lookback` slots, and is then the
   newest `lookback` of their bars, oldest first.
   */
  lemma {:induction false} WindowIsNewestBars(target: int, lookback: nat, raws: seq<Raw>)
    requires target > 0
    ensures var window := Window(Ingest(Fresh(target, lookback), raws).state);
            var bars := Finished(Accepted(None, raws), SlotOf(target));
            && (window.None? <==> |bars| < lookback)
            && (window.Some? ==>
                  && window.value == bars[|bars| - lookback..]
                  && Ascending(window.value))
  {
    var r := Ingest(Fresh(target, lookback), raws);
    RunOfFresh(target, lookback, raws, r);
    WindowOfRun(r, Accepted(None, raws), target, lookback);
  }

  lemma {:induction false} RunOfFresh(target: int, lookback: nat, raws: seq<Raw>, r: Ingested)
    requires target > 0 && r == Ingest(Fresh(target, lookback), raws)
    ensures r.state.target == target && r.state.lookback == lookback && Refines(r, Accepted(None, raws))
    ensures Ascending(r.bars + CurrentBars(r.state))
  {
    IngestRefines(target, lookback, raws);
    BarsAlignedAndConserved(target, lookback, raws);
  }

  lemma {:induction false} WindowOfRun(r: Ingested, a: seq<Raw>, target: int, lookback: nat)
    requires target > 0 && r.state.target == target && r.state.lookback == lookback && Refines(r, a)
    requires Ascending(r.bars + CurrentBars(r.state))
    ensures var window, bars := Window(r.state), Finished(a, SlotOf(target));
            && (window.None? <==> |bars| < lookback)
            && (window.Some? ==>
                  && window.value == bars[|bars| - lookback..]
                  && Ascending(window.value))
  {
    RefinedBars(r, a);
    WindowOfBars(r);
  }

  lemma {:induction false} RefinedBars(r: Ingested, a: seq<Raw>)
    requires r.state.target > 0 && Refines(r, a)
    ensures r.bars == Finished(a, SlotOf(r.state.target))
  {
    var g := Group(a, SlotOf(r.state.target));
    if |a| == 0 {
      assert g == [];
    } else {
      assert g[..|g| - 1] == r.bars;
    }
  }

  lemma {:induction false} WindowOfBars(r: Ingested)
    requires r.state.completed == LastN(r.bars, r.state.lookback)
    requires Ascending(r.bars + CurrentBars(r.state))
    ensures var window, n := Window(r.state), r.state.lookback;
            && (window.None? <==> |r.bars| < n)
            && (window.Some? ==>
                  && window.value == r.bars[|r.bars| - n..]
                  && Ascending(window.value))
  {
    assert forall i :: 0 <= i < |r.bars| ==> (r.bars + CurrentBars(r.state))[i] == r.bars[i];
  }

  lemma {:induction false} SlotsAreStarts(raws: seq<Raw>, target: int)
    requires target > 0
    ensures forall i :: 0 <= i < |Slots(raws, SlotOf(target))| ==> Slots(raws, SlotOf(target))[i] % target == 0
  {
    if |raws| > 0 {
      SlotsAreStarts(raws[..|raws| - 1], target);
      SlotStartAligned(raws[|raws| - 1].ts, target);
    }
  }

  // ---- Splitting, replay and resume -----------------------------------------------------

  /** Cutting a stream into several calls changes neither the bars returned nor the state. */
  lemma {:induction false} IngestSplits(st: State, a: seq<Raw>, b: seq<Raw>)
    requires st.target > 0
    ensures var r := Ingest(st, a);
            var s := Ingest(r.state, b);
            Ingest(st, a + b) == Ingested(s.state, r.bars + s.bars)
  {
    if |b| == 0 {
      assert a + b == a && Ingest(st, a).bars + [] == Ingest(st, a).bars;
    } else {
      var n := |b| - 1;
      assert (a + b)[..|a + b| - 1] == a + b[..n] && (a + b)[|a + b| - 1] == b[n];
      IngestSplits(st, a, b[..n]);
    }
  }

  /** Raw bars that are not newer than the newest one seen change nothing. */
  lemma {:induction false} ReplayIgnored(st: State, replay: seq<Raw>)
    requires st.target > 0 && forall i :: 0 <= i < |replay| ==> Seen(st.lastSeen, replay[i].ts)
    ensures Ingest(st, replay) == Ingested(st, [])
  {
    if |replay| > 0 {
      ReplayIgnored(st, replay[..|replay| - 1]);
    }
  }

  /** Any state keeps the last bars it was ever given as completed. */
  lemma {:induction false} CompletedIsLast(st: State, raws: seq<Raw>)
    requires st.target > 0 && |st.completed| <= st.lookback
    ensures var r := Ingest(st, raws);
            r.state.completed == LastN(st.completed + r.bars, st.lookback) && r.state.total == st.total + |r.bars|
  {
    if |raws| == 0 {
      assert st.completed + [] == st.completed;
    } else {
      var before := Ingest(st, raws[..|raws| - 1]);
      var last := Step(before.state, raws[|raws| - 1]);
      CompletedIsLast(st, raws[..|raws| - 1]);
      RingStep(st.completed, before, last.bars, last.state);
    }
  }

  /** A step that completes `bars` pushes them into the ring. */
  lemma {:induction false} RingStep(first: seq<Bar>, before: Ingested, bars: seq<Bar>, next: State)
    requires before.state.completed == LastN(first + before.bars, before.state.lookback)
    requires next.lookback == before.state.lookback
    requires next.completed == if |bars| == 0 then before.state.completed
                               else LastN(before.state.completed + bars, before.state.lookback)
    ensures next.completed == LastN(first + (before.bars + bars), next.lookback)
  {
    assert first + before.bars + bars == first + (before.bars + bars);
    if |bars| == 0 {
      assert before.bars + bars == before.bars;
    } else {
      LastNAppend(first + before.bars, bars, next.lookback);
    }
  }

  /**
   Crash and resume: restart from a snapshot, replay raw bars already seen, then continue. The bars
   returned and the final state are those of the uninterrupted run.
   */
  lemma {:induction false} ResumeEqualsUninterrupted(target: int, lookback: nat, seen: seq<Raw>,
      replay: seq<Raw>, more: seq<Raw>)
    requires target > 0
    requires forall i :: 0 <= i < |replay| ==> replay[i] in seen
    ensures var crashed := Ingest(Fresh(target, lookback), seen);
            var resumed := Ingest(Restored(crashed.state, None), replay + more);
            Ingest(Fresh(target, lookback), seen + more) == Ingested(resumed.state, crashed.bars + resumed.bars)
  {
    var st := Ingest(Fresh(target, lookback), seen).state;
    CompletedIsLast(Fresh(target, lookback), seen);
    assert Restored(st, None) == st;
    SeenIsSeen(Fresh(target, lookback), seen);
    ReplayIgnored(st, replay);
    IngestSplits(st, replay, more);
    IngestSplits(Fresh(target, lookback), seen, more);
    assert [] + Ingest(st, more).bars == Ingest(st, more).bars;
  }

  lemma {:induction false} SeenIsSeen(st: State, raws: seq<Raw>)
    requires st.target > 0
    ensures var last := Ingest(st, raws).state.lastSeen;
            && (st.lastSeen.Some? ==> last.Some? && st.lastSeen.value <= last.value)
            && (forall i :: 0 <= i < |raws| ==> Seen(last, raws[i].ts))
  {
    if |raws| > 0 {
      SeenIsSeen(st, raws[..|raws| - 1]);
    }
  }

  /** States that differ only in how many completed bars they keep. */
  predicate SameButRing(s: State, t: State) {
    s.(completed := [], lookback := 0) == t.(completed := [], lookback := 0)
  }

  lemma {:induction false} RingDoesNotMatter(s: State, t: State, raws: seq<Raw>)
    requires s.target > 0 && SameButRing(s, t)
    ensures Ingest(s, raws).bars == Ingest(t, raws).bars && SameButRing(Ingest(s, raws).state, Ingest(t, raws).state)
  {
    if |raws| > 0 {
      RingDoesNotMatter(s, t, raws[..|raws| - 1]);
    }
  }

  /**
   Restoring under another lookback changes only how many completed bars are kept: the same bars are
   returned, and the ring holds the last `n` of those the snapshot still had and those that follow.
   */
  lemma {:induction false} OverrideOnlyResizes(st: State, n: nat, raws: seq<Raw>)
    requires st.target > 0 && |st.completed| <= st.lookback
    ensures var plain, resized := Ingest(st, raws), Ingest(Restored(st, Some(n)), raws);
            && resized.bars == plain.bars && SameButRing(resized.state, plain.state)
            && resized.state.completed == LastN(st.completed + plain.bars, n)
            && (n <= st.lookback ==> resized.state.completed == LastN(plain.state.completed, n))
  {
    RingDoesNotMatter(st, Restored(st, Some(n)), raws);
    CompletedIsLast(st, raws);
    CompletedIsLast(Restored(st, Some(n)), raws);
    LastNAppend(st.completed, Ingest(st, raws).bars, n);
  }
}
