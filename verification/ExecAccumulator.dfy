/**
 The store of executions seen so far (ib_trader/engine/exec_accumulator.py): each sweep merges what the
 broker reports into the store by execution id and drops what has left the trailing window. Times are
 microseconds since the epoch; the host's offset from UTC is a parameter.
 */
module ExecAccumulator {
  import opened Wrappers

  /** A reported execution; the fields that never matter to merging are `rest`. */
  datatype Exec = Exec(id: string, symbol: string, time: Option<int>, realized: Option<real>,
                       commission: Option<real>, multiplier: Option<string>, rest: string)

  datatype Record = Record(symbol: string, time: int, realized: Option<real>, commission: Option<real>,
                           multiplier: Option<string>, rest: string)

  /** When a sweep runs: now, the host's offset from UTC, and the length of the window. */
  datatype Clock = Clock(now: int, offset: int, window: int)

  type Store = map<string, Record>

  const FUTURE_GRACE := 120_000_000

  /** The record of a usable report; one without id, symbol or time is not. */
  function ToRecord(ex: Exec): Option<Record> {
    if ex.id == "" || ex.symbol == "" || ex.time.None? then None
    else Some(Record(ex.symbol, ex.time.value, ex.realized, ex.commission, ex.multiplier, ex.rest))
  }

  /** A time beyond the grace period is shifted: move it by the offset. */
  function Deshift(time: int, clock: Clock): int {
    if time > clock.now + FUTURE_GRACE then time + clock.offset else time
  }

  predicate IsZero(v: Option<real>) {
    v.None? || v.value == 0.0
  }

  function Lookup(store: Store, id: string): Option<Record> {
    if id in store then Some(store[id]) else None
  }

  /** What is stored for an id after one more record of it. */
  function Upsert(prev: Option<Record>, rec: Record, clock: Clock): Record {
    match prev
    case None => rec.(time := Deshift(rec.time, clock))
    case Some(p) =>
      if p.realized.None? && rec.realized.Some? then
        p.(realized := rec.realized, commission := if rec.commission.Some? then rec.commission else p.commission)
      else
        p.(commission := if IsZero(p.commission) && !IsZero(rec.commission) then rec.commission else p.commission,
           multiplier := if p.multiplier.None? && rec.multiplier.Some? then rec.multiplier else p.multiplier)
  }

  function Insert(store: Store, ex: Exec, clock: Clock): Store {
    match ToRecord(ex)
    case None => store
    case Some(rec) => store[ex.id := Upsert(Lookup(store, ex.id), rec, clock)]
  }

  function InsertAll(store: Store, batch: seq<Exec>, clock: Clock): Store {
    if |batch| == 0 then store
    else Insert(InsertAll(store, batch[..|batch| - 1], clock), batch[|batch| - 1], clock)
  }

  predicate Within(time: int, clock: Clock) {
    time >= clock.now - clock.window
  }

  function Prune(store: Store, clock: Clock): Store {
    map id | id in store && Within(store[id].time, clock) :: store[id]
  }

  function Merge(store: Store, batch: seq<Exec>, clock: Clock): Store {
    Prune(InsertAll(store, batch, clock), clock)
  }

  method MergeExecutions(stored: Store, batch: seq<Exec>, clock: Clock) returns (merged: Store)
    ensures merged == Merge(stored, batch, clock)
  {
    var futureCutoff := clock.now + FUTURE_GRACE;
    var out := stored;
    for i := 0 to |batch|
      invariant out == InsertAll(stored, batch[..i], clock)
    {
      assert batch[..i + 1][..i] == batch[..i];
      var ex := batch[i];
      if ex.id == "" || ex.symbol == "" || ex.time.None? {
        continue;
      }
      var rec := Record(ex.symbol, ex.time.value, ex.realized, ex.commission, ex.multiplier, ex.rest);
      if ex.id !in out {
        if rec.time > futureCutoff {
          rec := rec.(time := rec.time + clock.offset);
        }
        out := out[ex.id := rec];
      } else {
        var prev := out[ex.id];
        if prev.realized.None? && rec.realized.Some? {
          prev := prev.(realized := rec.realized);
          if rec.commission.Some? {
            prev := prev.(commission := rec.commission);
          }
        } else {
          if IsZero(prev.commission) && !IsZero(rec.commission) {
            prev := prev.(commission := rec.commission);
          }
          if prev.multiplier.None? && rec.multiplier.Some? {
            prev := prev.(multiplier := rec.multiplier);
          }
        }
        out := out[ex.id := prev];
      }
    }
    assert batch[..|batch|] == batch;
    var cutoff := clock.now - clock.window;
    merged := map id | id in out && out[id].time >= cutoff :: out[id];
  }

  // ---- One id at a time -----------------------------------------------------------

  /** The usable records of one id in a batch. */
  function OfId(batch: seq<Exec>, id: string): seq<Record> {
    if |batch| == 0 then []
    else
      var before, last := OfId(batch[..|batch| - 1], id), batch[|batch| - 1];
      if last.id == id && ToRecord(last).Some? then before + [ToRecord(last).value] else before
  }

  function UpsertAll(prev: Option<Record>, recs: seq<Record>, clock: Clock): Option<Record> {
    if |recs| == 0 then prev
    else Some(Upsert(UpsertAll(prev, recs[..|recs| - 1], clock), recs[|recs| - 1], clock))
  }

  function Pruned(r: Option<Record>, clock: Clock): Option<Record> {
    if r.Some? && Within(r.value.time, clock) then r else None
  }

  /** What a merge leaves under an id depends only on what was there and on that id's own records. */
  lemma {:induction false} MergeIsPointwise(store: Store, batch: seq<Exec>, clock: Clock, id: string)
    ensures Lookup(InsertAll(store, batch, clock), id) == UpsertAll(Lookup(store, id), OfId(batch, id), clock)
    ensures Lookup(Merge(store, batch, clock), id)
         == Pruned(UpsertAll(Lookup(store, id), OfId(batch, id), clock), clock)
  {
    if |batch| > 0 {
      var n := |batch| - 1;
      MergeIsPointwise(store, batch[..n], clock, id);
      var before, rec := OfId(batch[..n], id), ToRecord(batch[n]);
      if batch[n].id == id && rec.Some? {
        assert (before + [rec.value])[..|before|] == before;
      }
    }
  }

  // ---- What a store keeps over sweeps -------------------------------------------------

  datatype Sweep = Sweep(batch: seq<Exec>, clock: Clock)

  function After(store: Store, sweeps: seq<Sweep>): Store {
    if |sweeps| == 0 then store
    else Merge(After(store, sweeps[..|sweeps| - 1]), sweeps[|sweeps| - 1].batch, sweeps[|sweeps| - 1].clock)
  }

  /** `r` still has the time, and any realized profit, that `p` had. */
  predicate Keeps(p: Record, r: Record) {
    r.time == p.time && (p.realized.Some? ==> r.realized == p.realized)
  }

  lemma {:induction false} UpsertKeeps(p: Record, recs: seq<Record>, clock: Clock)
    ensures UpsertAll(Some(p), recs, clock).Some? && Keeps(p, UpsertAll(Some(p), recs, clock).value)
  {
    if |recs| > 0 {
      UpsertKeeps(p, recs[..|recs| - 1], clock);
    }
  }

  /**
   Whatever later batches contain or omit, a stored execution stays, with its time and any realized
   profit, through every later sweep until its time leaves the window.
   */
  lemma {:induction false} StoredIsFrozen(store: Store, sweeps: seq<Sweep>, id: string)
    requires id in store && forall k :: 0 <= k < |sweeps| ==> Within(store[id].time, sweeps[k].clock)
    ensures id in After(store, sweeps) && Keeps(store[id], After(store, sweeps)[id])
  {
    if |sweeps| > 0 {
      var before, last := After(store, sweeps[..|sweeps| - 1]), sweeps[|sweeps| - 1];
      StoredIsFrozen(store, sweeps[..|sweeps| - 1], id);
      UpsertKeeps(before[id], OfId(last.batch, id), last.clock);
      MergeIsPointwise(before, last.batch, last.clock, id);
    }
  }

  /** Nothing outside the window survives a sweep. */
  lemma {:induction false} SweptIsWithin(store: Store, sweeps: seq<Sweep>, id: string)
    requires |sweeps| > 0 && id in After(store, sweeps)
    ensures Within(After(store, sweeps)[id].time, sweeps[|sweeps| - 1].clock)
  {
  }

  /** One window length, and a clock that never goes back. */
  ghost predicate Forward(sweeps: seq<Sweep>) {
    && (forall k :: 0 <= k < |sweeps| ==> sweeps[k].clock.window == sweeps[0].clock.window)
    && (forall k, l :: 0 <= k < l < |sweeps| ==> sweeps[k].clock.now <= sweeps[l].clock.now)
  }

  /**
   With such a clock, whatever the batches contain or omit, a stored execution is still there with its
   time and any realized profit exactly when its time is in the window of the last sweep.
   */
  lemma {:induction false} FrozenWhileInWindow(store: Store, sweeps: seq<Sweep>, id: string)
    requires id in store && |sweeps| > 0 && Forward(sweeps)
    ensures id in After(store, sweeps) && Keeps(store[id], After(store, sweeps)[id])
       <==> Within(store[id].time, sweeps[|sweeps| - 1].clock)
  {
    if id in After(store, sweeps) {
      SweptIsWithin(store, sweeps, id);
    }
    if Within(store[id].time, sweeps[|sweeps| - 1].clock) {
      forall k | 0 <= k < |sweeps| ensures Within(store[id].time, sweeps[k].clock) {
        assert k < |sweeps| - 1 ==> sweeps[k].clock.now <= sweeps[|sweeps| - 1].clock.now;
      }
      StoredIsFrozen(store, sweeps, id);
    }
  }

  function FirstRealized(recs: seq<Record>): Option<real> {
    if |recs| == 0 then None
    else
      var before := FirstRealized(recs[..|recs| - 1]);
      if before.Some? then before else recs[|recs| - 1].realized
  }

  /** A new id gets the time of its first record, corrected once, and the first realized profit reported for it. */
  lemma {:induction false} FirstSeenDecides(recs: seq<Record>, clock: Clock)
    requires |recs| > 0
    ensures var r := UpsertAll(None, recs, clock);
            r.Some? && r.value.time == Deshift(recs[0].time, clock) && r.value.realized == FirstRealized(recs)
  {
    if |recs| > 1 {
      FirstSeenDecides(recs[..|recs| - 1], clock);
    } else {
      assert recs[..0] == [];
    }
  }

  // ---- Merging one batch again --------------------------------------------------------

  ghost predicate Distinct(batch: seq<Exec>) {
    forall i, j :: 0 <= i < j < |batch| ==> batch[i].id != batch[j].id
  }

  /** A merge of one id that has one record in the batch. */
  function Step(prev: Option<Record>, rec: Record, clock: Clock): Option<Record> {
    Pruned(Some(Upsert(prev, rec, clock)), clock)
  }

  /**
   A second merge of the batch still changes this id: its profit arrives before its multiplier, or it
   falls out of the window and comes back with the reported time.
   */
  predicate Late(prev: Option<Record>, rec: Record, clock: Clock) {
    && prev.Some?
    && if Within(prev.value.time, clock)
       then prev.value.realized.None? && rec.realized.Some? && prev.value.multiplier.None? && rec.multiplier.Some?
       else Within(Deshift(rec.time, clock), clock)
  }

  lemma {:induction false} StepTwice(prev: Option<Record>, rec: Record, clock: Clock)
    ensures var once := Step(prev, rec, clock);
            var twice := Step(once, rec, clock);
            Step(twice, rec, clock) == twice && (twice == once <==> !Late(prev, rec, clock))
  {
  }

  lemma {:induction false} AtMostOne(batch: seq<Exec>, id: string)
    requires Distinct(batch)
    ensures |OfId(batch, id)| <= 1
    ensures (forall i :: 0 <= i < |batch| ==> batch[i].id != id) ==> OfId(batch, id) == []
  {
    if |batch| > 0 {
      var n := |batch| - 1;
      AtMostOne(batch[..n], id);
      if batch[n].id == id {
        assert forall i :: 0 <= i < n ==> batch[..n][i].id != id;
      }
    }
  }

  /** Merging under one id: nothing but pruning when the batch has no record of it. */
  lemma {:induction false} MergeOne(store: Store, batch: seq<Exec>, clock: Clock, id: string)
    requires Distinct(batch)
    ensures var recs := OfId(batch, id);
            && |recs| <= 1
            && Lookup(Merge(store, batch, clock), id)
               == if |recs| == 0 then Pruned(Lookup(store, id), clock) else Step(Lookup(store, id), recs[0], clock)
  {
    AtMostOne(batch, id);
    MergeIsPointwise(store, batch, clock, id);
    var recs := OfId(batch, id);
    if |recs| == 1 {
      assert recs[..0] == [];
    }
  }

  lemma {:induction false} SameStore(a: Store, b: Store)
    requires forall id :: Lookup(a, id) == Lookup(b, id)
    ensures a == b
  {
    forall id | id in a ensures id in b && a[id] == b[id] {
      assert Lookup(a, id) == Lookup(b, id);
    }
    forall id | id in b ensures id in a {
      assert Lookup(a, id) == Lookup(b, id);
    }
  }

  /** An id of the batch that a second merge still changes. */
  predicate LateId(store: Store, batch: seq<Exec>, clock: Clock, id: string) {
    |OfId(batch, id)| > 0 && Late(Lookup(store, id), OfId(batch, id)[0], clock)
  }

  lemma {:induction false} MergeTwiceAt(store: Store, batch: seq<Exec>, clock: Clock, id: string)
    requires Distinct(batch)
    ensures var once := Merge(store, batch, clock);
            var twice := Merge(once, batch, clock);
            && Lookup(Merge(twice, batch, clock), id) == Lookup(twice, id)
            && (Lookup(twice, id) == Lookup(once, id) <==> !LateId(store, batch, clock, id))
  {
    var once := Merge(store, batch, clock);
    var twice := Merge(once, batch, clock);
    MergeOne(store, batch, clock, id);
    MergeOne(once, batch, clock, id);
    MergeOne(twice, batch, clock, id);
    if |OfId(batch, id)| == 1 {
      StepTwice(Lookup(store, id), OfId(batch, id)[0], clock);
    }
  }

  /**
   Merging one batch of distinct ids again and again at one time settles after two merges; after one
   exactly when no id of the batch is late.
   */
  lemma {:induction false} SettlesAfterTwo(store: Store, batch: seq<Exec>, clock: Clock)
    requires Distinct(batch)
    ensures var once := Merge(store, batch, clock);
            var twice := Merge(once, batch, clock);
            && Merge(twice, batch, clock) == twice
            && (twice == once <==> forall id :: !LateId(store, batch, clock, id))
  {
    var once := Merge(store, batch, clock);
    var twice := Merge(once, batch, clock);
    forall id ensures Lookup(Merge(twice, batch, clock), id) == Lookup(twice, id)
                   && (Lookup(twice, id) == Lookup(once, id) <==> !LateId(store, batch, clock, id))
    {
      MergeTwiceAt(store, batch, clock, id);
    }
    SameStore(Merge(twice, batch, clock), twice);
    if forall id :: !LateId(store, batch, clock, id) {
      SameStore(twice, once);
    }
  }

  /** An execution stored before its profit and multiplier were known is late in the batch that brings both. */
  lemma {:induction false} UnpairedIsLate(ex: Exec, clock: Clock)
    requires ToRecord(ex).Some? && ex.realized.Some?
    requires ex.multiplier.Some? && Within(Deshift(ex.time.value, clock), clock)
    ensures var store := Merge(map[], [ex.(realized := None, multiplier := None)], clock);
            var once := Merge(store, [ex], clock);
            LateId(store, [ex], clock, ex.id) && Merge(once, [ex], clock) != once
  {
    var first := ex.(realized := None, multiplier := None);
    var store := Merge(map[], [first], clock);
    assert [first][..0] == [] && [ex][..0] == [];
    assert OfId([first], ex.id) == [ToRecord(first).value] && OfId([ex], ex.id) == [ToRecord(ex).value];
    MergeOne(map[], [first], clock, ex.id);
    assert Lookup(map[], ex.id) == None;
    assert Lookup(store, ex.id) == Step(None, ToRecord(first).value, clock);
    assert LateId(store, [ex], clock, ex.id);
    SettlesAfterTwo(store, [ex], clock);
  }

  // ---- Any batch, with ids that may repeat -----------------------------------------------

  /** What a merge makes of one id. */
  function MergeId(prev: Option<Record>, recs: seq<Record>, clock: Clock): Option<Record> {
    Pruned(UpsertAll(prev, recs, clock), clock)
  }

  /** The record has all that the records of the batch could fill in. */
  predicate Full(p: Record, recs: seq<Record>) {
    && (p.realized.None? ==> forall i :: 0 <= i < |recs| ==> recs[i].realized.None?)
    && (IsZero(p.commission) ==> forall i :: 0 <= i < |recs| ==> IsZero(recs[i].commission))
    && (p.multiplier.None? ==> forall i :: 0 <= i < |recs| ==> recs[i].multiplier.None?)
  }

  /** Stored in the window and full; or not stored, and nothing in the batch that would be. */
  predicate Settled(prev: Option<Record>, recs: seq<Record>, clock: Clock) {
    match prev
    case Some(p) => Within(p.time, clock) && Full(p, recs)
    case None => |recs| == 0 || !Within(Deshift(recs[0].time, clock), clock)
  }

  lemma {:induction false} FullKeeps(p: Record, recs: seq<Record>, clock: Clock)
    requires Full(p, recs)
    ensures UpsertAll(Some(p), recs, clock) == Some(p)
  {
    if |recs| > 0 {
      FullKeeps(p, recs[..|recs| - 1], clock);
    }
  }

  /** Something was filled in since `p`. */
  predicate Progress(p: Record, q: Record) {
    || (p.realized.None? && q.realized.Some?)
    || (IsZero(p.commission) && !IsZero(q.commission))
    || (p.multiplier.None? && q.multiplier.Some?)
  }

  lemma {:induction false} ProgressStays(p: Record, q: Record, rec: Record, clock: Clock)
    requires Progress(p, q) && Keeps(p, q)
    ensures Progress(p, Upsert(Some(q), rec, clock)) && Keeps(p, Upsert(Some(q), rec, clock))
  {
  }

  lemma {:induction false} NotFullChanges(p: Record, recs: seq<Record>, clock: Clock)
    requires !Full(p, recs)
    ensures UpsertAll(Some(p), recs, clock).Some? && Progress(p, UpsertAll(Some(p), recs, clock).value)
  {
    var n := |recs| - 1;
    UpsertKeeps(p, recs[..n], clock);
    if Full(p, recs[..n]) {
      FullKeeps(p, recs[..n], clock);
    } else {
      NotFullChanges(p, recs[..n], clock);
      ProgressStays(p, UpsertAll(Some(p), recs[..n], clock).value, recs[n], clock);
    }
  }

  /** A merge leaves an id as it is exactly when the id is settled. */
  lemma {:induction false} FixedIff(prev: Option<Record>, recs: seq<Record>, clock: Clock)
    ensures MergeId(prev, recs, clock) == prev <==> Settled(prev, recs, clock)
  {
    match prev
    case None =>
      if |recs| > 0 {
        FirstSeenDecides(recs, clock);
      }
    case Some(p) =>
      UpsertKeeps(p, recs, clock);
      if Full(p, recs) {
        FullKeeps(p, recs, clock);
      } else {
        NotFullChanges(p, recs, clock);
      }
  }

  /** A pass over the records takes any profit among them, */
  lemma {:induction false} ProfitTaken(prev: Option<Record>, recs: seq<Record>, clock: Clock)
    requires UpsertAll(prev, recs, clock).Some? && UpsertAll(prev, recs, clock).value.realized.None?
    ensures forall i :: 0 <= i < |recs| ==> recs[i].realized.None?
  {
    if |recs| > 0 && UpsertAll(prev, recs[..|recs| - 1], clock).Some? {
      ProfitTaken(prev, recs[..|recs| - 1], clock);
      assert forall i :: 0 <= i < |recs| - 1 ==> recs[..|recs| - 1][i] == recs[i];
    }
  }

  /** and the next pass, having the profit, all the rest. */
  lemma {:induction false} FullAfter(q: Record, recs: seq<Record>, clock: Clock)
    requires q.realized.None? ==> forall i :: 0 <= i < |recs| ==> recs[i].realized.None?
    ensures UpsertAll(Some(q), recs, clock).Some? && Keeps(q, UpsertAll(Some(q), recs, clock).value)
    ensures Full(UpsertAll(Some(q), recs, clock).value, recs)
  {
    UpsertKeeps(q, recs, clock);
    if |recs| > 0 {
      var n := |recs| - 1;
      FullAfter(q, recs[..n], clock);
      assert forall i :: 0 <= i < n ==> recs[..n][i] == recs[i];
    }
  }

  /** A record that drops out of the window, and comes back from a batch that repeats its id, still to be filled. */
  predicate Returns(prev: Option<Record>, recs: seq<Record>, clock: Clock) {
    && prev.Some? && !Within(prev.value.time, clock)
    && |recs| > 0 && Within(Deshift(recs[0].time, clock), clock)
    && !Full(UpsertAll(None, recs, clock).value, recs)
  }

  lemma {:induction false} KeptThenSettled(q: Record, recs: seq<Record>, clock: Clock)
    requires Within(q.time, clock) && (q.realized.None? ==> forall i :: 0 <= i < |recs| ==> recs[i].realized.None?)
    ensures Settled(MergeId(Some(q), recs, clock), recs, clock)
  {
    FullAfter(q, recs, clock);
  }

  /** Two merges after an id was stored, or not, it is settled. */
  lemma {:induction false} SettledAfterStored(prev: Option<Record>, recs: seq<Record>, clock: Clock)
    requires prev.Some? ==> Within(prev.value.time, clock)
    ensures Settled(MergeId(MergeId(prev, recs, clock), recs, clock), recs, clock)
  {
    var once := MergeId(prev, recs, clock);
    if prev.Some? {
      UpsertKeeps(prev.value, recs, clock);
    }
    if once.Some? {
      if once.value.realized.None? {
        ProfitTaken(prev, recs, clock);
      }
      KeptThenSettled(once.value, recs, clock);
    } else {
      FixedIff(None, recs, clock);
    }
  }

  lemma {:induction false} SettlesAt(prev: Option<Record>, recs: seq<Record>, clock: Clock)
    ensures var once := MergeId(prev, recs, clock);
            var twice := MergeId(once, recs, clock);
            && (Settled(twice, recs, clock) <==> !Returns(prev, recs, clock))
            && Settled(MergeId(twice, recs, clock), recs, clock)
  {
    var once := MergeId(prev, recs, clock);
    if prev.Some? && !Within(prev.value.time, clock) {
      UpsertKeeps(prev.value, recs, clock);
      assert once == None;
      SettledAfterStored(None, recs, clock);
      if |recs| > 0 {
        FirstSeenDecides(recs, clock);
      }
    } else {
      SettledAfterStored(prev, recs, clock);
      var twice := MergeId(once, recs, clock);
      FixedIff(twice, recs, clock);
    }
  }

  /** Merging a batch changes nothing exactly when every id is settled. */
  lemma {:induction false} FixedExactly(store: Store, batch: seq<Exec>, clock: Clock)
    ensures Merge(store, batch, clock) == store
       <==> forall id :: Settled(Lookup(store, id), OfId(batch, id), clock)
  {
    forall id ensures Lookup(Merge(store, batch, clock), id) == Lookup(store, id)
                 <==> Settled(Lookup(store, id), OfId(batch, id), clock)
    {
      MergeIsPointwise(store, batch, clock, id);
      FixedIff(Lookup(store, id), OfId(batch, id), clock);
    }
    if forall id :: Settled(Lookup(store, id), OfId(batch, id), clock) {
      SameStore(Merge(store, batch, clock), store);
    }
  }

  lemma {:induction false} MergedTwice(store: Store, batch: seq<Exec>, clock: Clock, id: string)
    ensures var recs, twice := OfId(batch, id), Merge(Merge(store, batch, clock), batch, clock);
            && (Settled(Lookup(twice, id), recs, clock) <==> !Returns(Lookup(store, id), recs, clock))
            && Settled(Lookup(Merge(twice, batch, clock), id), recs, clock)
  {
    var once := Merge(store, batch, clock);
    MergeIsPointwise(store, batch, clock, id);
    MergeIsPointwise(once, batch, clock, id);
    MergeIsPointwise(Merge(once, batch, clock), batch, clock, id);
    SettlesAt(Lookup(store, id), OfId(batch, id), clock);
  }

  /**
   Merging any batch again and again at one time settles after three merges, and after two exactly when no
   record that dropped out of the window returns unfilled; after one when every id is settled by then.
   */
  lemma {:induction false} SettlesExactly(store: Store, batch: seq<Exec>, clock: Clock)
    ensures var once := Merge(store, batch, clock);
            var twice := Merge(once, batch, clock);
            var thrice := Merge(twice, batch, clock);
            && Merge(thrice, batch, clock) == thrice
            && (thrice == twice <==> forall id :: !Returns(Lookup(store, id), OfId(batch, id), clock))
            && (twice == once <==> forall id :: Settled(Lookup(once, id), OfId(batch, id), clock))
  {
    var once := Merge(store, batch, clock);
    var twice := Merge(once, batch, clock);
    forall id
      ensures Settled(Lookup(twice, id), OfId(batch, id), clock)
         <==> !Returns(Lookup(store, id), OfId(batch, id), clock)
      ensures Settled(Lookup(Merge(twice, batch, clock), id), OfId(batch, id), clock)
    {
      MergedTwice(store, batch, clock, id);
    }
    FixedExactly(once, batch, clock);
    FixedExactly(twice, batch, clock);
    FixedExactly(Merge(twice, batch, clock), batch, clock);
  }

  /** A batch that reports an execution twice, first without profit and multiplier, can need all three merges. */
  lemma {:induction false} RepeatedIdNeedsThree(was: Record, ex: Exec, clock: Clock)
    requires ToRecord(ex).Some? && ex.realized.Some? && ex.multiplier.Some?
    requires !Within(was.time, clock) && Within(Deshift(ex.time.value, clock), clock)
    ensures var batch := [ex.(realized := None, multiplier := None), ex];
            var twice := Merge(Merge(map[ex.id := was], batch, clock), batch, clock);
            Merge(twice, batch, clock) != twice
  {
    var first := ex.(realized := None, multiplier := None);
    var batch, store := [first, ex], map[ex.id := was];
    var a, b := ToRecord(first).value, ToRecord(ex).value;
    assert batch[..1] == [first] && [first][..0] == [];
    assert OfId([], ex.id) == [] && OfId([first], ex.id) == [] + [a] == [a];
    assert batch[1] == ex && OfId(batch, ex.id) == OfId(batch[..1], ex.id) + [b] == [a, b];
    UnpairedThenPaired(was, a, b, clock);
    assert Returns(Lookup(store, ex.id), OfId(batch, ex.id), clock);
    SettlesExactly(store, batch, clock);
  }

  lemma {:induction false} UnpairedThenPaired(was: Record, a: Record, b: Record, clock: Clock)
    requires !Within(was.time, clock) && Within(Deshift(a.time, clock), clock)
    requires a.realized.None? && a.multiplier.None? && b.realized.Some? && b.multiplier.Some?
    ensures Returns(Some(was), [a, b], clock)
  {
    assert [a, b][..1] == [a] && [a][..0] == [] && [a][0] == a && [a, b][1] == b;
    assert UpsertAll(None, [a], clock) == Some(a.(time := Deshift(a.time, clock)));
    assert UpsertAll(None, [a, b], clock) == Some(Upsert(UpsertAll(None, [a], clock), b, clock));
    assert [a, b][1].multiplier.Some?;
  }

  // ---- A corrected time that comes back -------------------------------------------------------

  lemma {:induction false} StepsOfLostTime(rec: Record, first: Clock, later: Clock, last: Clock)
    requires rec.time > first.now + FUTURE_GRACE && Within(rec.time + first.offset, first)
    requires !Within(rec.time + first.offset, later)
    requires rec.time <= last.now + FUTURE_GRACE && Within(rec.time, last)
    ensures var stored := Step(None, rec, first);
            && stored == Some(rec.(time := rec.time + first.offset))
            && Step(stored, rec, later) == None
            && Step(Step(stored, rec, later), rec, last) == Some(rec)
  {
  }

  lemma {:induction false} SweepOne(store: Store, ex: Exec, clock: Clock)
    requires ToRecord(ex).Some?
    ensures Lookup(Merge(store, [ex], clock), ex.id) == Step(Lookup(store, ex.id), ToRecord(ex).value, clock)
  {
    assert [ex][..0] == [];
    assert OfId([ex], ex.id) == [ToRecord(ex).value];
    MergeOne(store, [ex], clock, ex.id);
  }

  /**
   A time that was corrected at first sight comes back uncorrected: once the corrected time has left the
   window a sweep drops the record, and the next one that still reports the fill stores it as reported.
   */
  lemma {:induction false} CorrectedTimeIsLost(ex: Exec, first: Clock, later: Clock, last: Clock)
    requires ToRecord(ex).Some? && ex.time.value > first.now + FUTURE_GRACE
    requires Within(ex.time.value + first.offset, first) && !Within(ex.time.value + first.offset, later)
    requires ex.time.value <= last.now + FUTURE_GRACE && Within(ex.time.value, last)
    ensures var sweeps, rec := [Sweep([ex], first), Sweep([ex], later), Sweep([ex], last)], ToRecord(ex).value;
            && Lookup(After(map[], sweeps[..1]), ex.id) == Some(rec.(time := ex.time.value + first.offset))
            && ex.id !in After(map[], sweeps[..2])
            && Lookup(After(map[], sweeps), ex.id) == Some(rec)
  {
    var sweeps := [Sweep([ex], first), Sweep([ex], later), Sweep([ex], last)];
    assert sweeps[..1][..0] == [] && sweeps[..2][..1] == sweeps[..1] && sweeps[..3] == sweeps;
    SweepOne(map[], ex, first);
    SweepOne(After(map[], sweeps[..1]), ex, later);
    SweepOne(After(map[], sweeps[..2]), ex, last);
    StepsOfLostTime(ToRecord(ex).value, first, later, last);
  }
}
