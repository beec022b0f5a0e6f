/**
 What the store holds under an execution id after a merge, field by field and on the reports alone
 (ib_trader/engine/exec_accumulator.py, merge_executions).
 */
module MergedFields {
  import opened Wrappers
  import opened ExecAccumulator

  /** The usable reports of one id, in order: those with an id, a symbol and a time. */
  function Reports(batch: seq<Exec>, id: string): seq<Exec> {
    if |batch| == 0 then []
    else
      var before, last := Reports(batch[..|batch| - 1], id), batch[|batch| - 1];
      if last.id == id && last.id != "" && last.symbol != "" && last.time.Some? then before + [last] else before
  }

  /** What is stored under an id nothing is stored under yet: its first report, a time in the future corrected. */
  function Begun(ex: Exec, clock: Clock): Record
    requires ex.time.Some?
  {
    var t := ex.time.value;
    Record(ex.symbol, if t > clock.now + 120_000_000 then t + clock.offset else t,
           ex.realized, ex.commission, ex.multiplier, ex.rest)
  }

  /** The first commission reported that is not zero. */
  function FirstCharge(reports: seq<Exec>): Option<real> {
    if |reports| == 0 then None
    else if reports[0].commission.Some? && reports[0].commission.value != 0.0 then reports[0].commission
    else FirstCharge(reports[1..])
  }

  /** A commission that is not zero stays; any other gives way to the first that is reported. */
  function Charged(c: Option<real>, reports: seq<Exec>): Option<real> {
    if c.Some? && c.value != 0.0 then c
    else if FirstCharge(reports).Some? then FirstCharge(reports) else c
  }

  function FirstMultiplier(reports: seq<Exec>): Option<string> {
    if |reports| == 0 then None
    else if reports[0].multiplier.Some? then reports[0].multiplier else FirstMultiplier(reports[1..])
  }

  function Multiplied(m: Option<string>, reports: seq<Exec>): Option<string> {
    if m.Some? then m else FirstMultiplier(reports)
  }

  /** The record after reports that bring no profit it lacks. */
  function Filled(p: Record, reports: seq<Exec>): Record {
    p.(commission := Charged(p.commission, reports), multiplier := Multiplied(p.multiplier, reports))
  }

  /** The record after the report that brings the profit: with the commission it brings, but not its multiplier. */
  function Paired(p: Record, ex: Exec): Record {
    p.(realized := ex.realized, commission := if ex.commission.Some? then ex.commission else p.commission)
  }

  ghost predicate NoProfit(reports: seq<Exec>) {
    forall i :: 0 <= i < |reports| ==> reports[i].realized.None?
  }

  // ---- One id --------------------------------------------------------------------------------

  function Records(reports: seq<Exec>): seq<Record>
    requires forall i :: 0 <= i < |reports| ==> ToRecord(reports[i]).Some?
  {
    seq(|reports|, i requires 0 <= i < |reports| => ToRecord(reports[i]).value)
  }

  ghost predicate Usable(reports: seq<Exec>) {
    forall i :: 0 <= i < |reports| ==> ToRecord(reports[i]).Some?
  }

  lemma {:induction false} ReportsAreRecords(batch: seq<Exec>, id: string)
    ensures Usable(Reports(batch, id)) && OfId(batch, id) == Records(Reports(batch, id))
  {
    if |batch| > 0 {
      ReportsAreRecords(batch[..|batch| - 1], id);
    }
  }

  lemma {:induction false} UpsertFirst(prev: Option<Record>, recs: seq<Record>, clock: Clock)
    requires |recs| > 0
    ensures UpsertAll(prev, recs, clock) == UpsertAll(Some(Upsert(prev, recs[0], clock)), recs[1..], clock)
  {
    if |recs| > 1 {
      UpsertFirst(prev, recs[..|recs| - 1], clock);
      assert recs[1..][..|recs| - 2] == recs[..|recs| - 1][1..];
    } else {
      assert recs[..0] == [] && recs[1..] == [];
    }
  }

  lemma {:induction false} RecordsFirst(reports: seq<Exec>)
    requires |reports| > 0 && Usable(reports)
    ensures Usable(reports[1..]) && Records(reports)[0] == ToRecord(reports[0]).value
    ensures Records(reports)[1..] == Records(reports[1..])
  {
  }

  lemma {:induction false} FillsIn(p: Record, reports: seq<Exec>, clock: Clock)
    requires Usable(reports) && (p.realized.Some? || NoProfit(reports))
    ensures UpsertAll(Some(p), Records(reports), clock) == Some(Filled(p, reports))
    decreases |reports|
  {
    if |reports| > 0 {
      UpsertFirst(Some(p), Records(reports), clock);
      RecordsFirst(reports);
      FillsIn(Upsert(Some(p), ToRecord(reports[0]).value, clock), reports[1..], clock);
    }
  }

  /** The first report of a profit that is lacking is the `j`th. */
  lemma {:induction false} PairsAt(p: Record, reports: seq<Exec>, j: nat, clock: Clock)
    requires Usable(reports) && p.realized.None? && j < |reports|
    requires reports[j].realized.Some? && NoProfit(reports[..j])
    ensures UpsertAll(Some(p), Records(reports), clock)
         == Some(Filled(Paired(Filled(p, reports[..j]), reports[j]), reports[j + 1..]))
    decreases j
  {
    UpsertFirst(Some(p), Records(reports), clock);
    RecordsFirst(reports);
    var next := Upsert(Some(p), ToRecord(reports[0]).value, clock);
    if j == 0 {
      FillsIn(next, reports[1..], clock);
    } else {
      assert reports[..j][0] == reports[0] && reports[..j][1..] == reports[1..][..j - 1];
      assert reports[1..][j - 1] == reports[j] && reports[1..][j..] == reports[j + 1..];
      PairsAt(next, reports[1..], j - 1, clock);
    }
  }

  /**
   What a merge leaves of a stored record: the stored profit or else the first reported, with the commission
   that came with it, and else the first commission that is not zero and the first multiplier, the one
   that came with the profit excepted. Time, symbol and all else stay.
   */
  ghost predicate MergedInto(p: Record, reports: seq<Exec>, r: Record) {
    if p.realized.Some? || NoProfit(reports) then r == Filled(p, reports)
    else
      exists j :: 0 <= j < |reports| && reports[j].realized.Some? && NoProfit(reports[..j])
               && r == Filled(Paired(Filled(p, reports[..j]), reports[j]), reports[j + 1..])
  }

  lemma {:induction false} Merges(p: Record, reports: seq<Exec>, clock: Clock)
    requires Usable(reports)
    ensures UpsertAll(Some(p), Records(reports), clock).Some?
    ensures MergedInto(p, reports, UpsertAll(Some(p), Records(reports), clock).value)
  {
    if p.realized.Some? || NoProfit(reports) {
      FillsIn(p, reports, clock);
    } else {
      var j := FirstProfit(reports);
      PairsAt(p, reports, j, clock);
    }
  }

  lemma {:induction false} FirstProfit(reports: seq<Exec>) returns (j: nat)
    requires |reports| > 0 && !NoProfit(reports)
    ensures j < |reports| && reports[j].realized.Some? && NoProfit(reports[..j])
  {
    if reports[0].realized.Some? {
      j := 0;
    } else {
      var i :| 0 <= i < |reports| && reports[i].realized.Some?;
      assert reports[1..][i - 1] == reports[i];
      var k := FirstProfit(reports[1..]);
      j := k + 1;
      assert reports[..j] == [reports[0]] + reports[1..][..k];
    }
  }

  /** The record a merge starts from, and the reports it takes in: a stored one and all, or the first and the rest. */
  function Base(store: Store, batch: seq<Exec>, clock: Clock, id: string): Option<(Record, seq<Exec>)> {
    var reports := Reports(batch, id);
    if id in store then Some((store[id], reports))
    else if |reports| == 0 || reports[0].time.None? then None
    else Some((Begun(reports[0], clock), reports[1..]))
  }

  /**
   The merged store, from the store and the reports: an id is in it exactly when it was stored or has a usable
   report and the time kept for it is in the window, and then all its fields are as stated.
   */
  lemma {:induction false} MergeMeans(store: Store, batch: seq<Exec>, clock: Clock, id: string)
    ensures var merged, base := Merge(store, batch, clock), Base(store, batch, clock, id);
            && (id in merged <==> base.Some? && base.value.0.time >= clock.now - clock.window)
            && (id in merged ==> MergedInto(base.value.0, base.value.1, merged[id]))
  {
    var reports := Reports(batch, id);
    MergeIsPointwise(store, batch, clock, id);
    ReportsAreRecords(batch, id);
    if id in store {
      Merges(store[id], reports, clock);
    } else if |reports| > 0 {
      assert ToRecord(reports[0]).Some?;
      UpsertFirst(None, Records(reports), clock);
      RecordsFirst(reports);
      Merges(Begun(reports[0], clock), reports[1..], clock);
    }
  }
}
