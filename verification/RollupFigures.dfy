/**
 What the rollup says about a contract, on its executions alone (ib_trader/engine/pnl_rollup.py): which contracts
 are in it, on which basis, and what their figures sum.
 */
module RollupFigures {
  import opened Wrappers
  import opened LifoPnl
  import opened PnlRollup

  /** The P&L of a row is what its LIFO result records for it, or without such a result what the broker reported. */
  lemma {:induction false} PnlOfMeans(ex: Row, lifo: map<string, LifoResult>)
    ensures var matched := ex.isFuture && ex.symbol in lifo && lifo[ex.symbol].Lifo?;
            && (!matched ==> PnlOf(ex, lifo) == ex.realized)
            && (matched && ex.eid in lifo[ex.symbol].realizedByExec ==>
                  PnlOf(ex, lifo) == Some(lifo[ex.symbol].realizedByExec[ex.eid]))
            && (matched && ex.eid !in lifo[ex.symbol].realizedByExec ==> PnlOf(ex, lifo) == None)
  {
  }

  /** The row is of the contract, and has P&L on some basis. */
  predicate Counts(ex: Row, sym: string, lifo: map<string, LifoResult>) {
    ex.symbol == sym && (PnlOf(ex, lifo).Some? || ex.realized.Some?)
  }

  /** The first `n` rows have one of a futures contract that counts, from a time on. */
  ghost predicate Marks(executions: seq<Row>, n: nat, sym: string, from: int, lifo: map<string, LifoResult>)
    requires n <= |executions|
  {
    exists i :: 0 <= i < n && Counts(executions[i], sym, lifo) && executions[i].isFuture && executions[i].time >= from
  }

  /** A contract has a slot exactly when a row of it counts; session figures are there when one since the start does. */
  ghost predicate HasSlot(slots: map<string, Slot>, executions: seq<Row>, n: nat, sym: string, from: int,
                          lifo: map<string, LifoResult>)
    requires n <= |executions|
  {
    && (sym in slots <==> exists i :: 0 <= i < n && Counts(executions[i], sym, lifo))
    && (sym in slots ==> (slots[sym].pnlSession.Some? <==> Marks(executions, n, sym, from, lifo)))
    && (sym in slots ==>
          (slots[sym].ibSession.Some? <==>
             exists i :: 0 <= i < n && executions[i].symbol == sym && executions[i].isFuture
                      && executions[i].time >= from && executions[i].realized.Some?))
  }

  lemma {:induction false} HasSlotNext(slots: map<string, Slot>, executions: seq<Row>, n: nat, sym: string, w: Window,
                                       lifo: map<string, LifoResult>)
    requires sym != "" && n < |executions| && HasSlot(slots, executions, n, sym, w.sessionStart, lifo)
    ensures HasSlot(RollRow(slots, executions[n], w, lifo), executions, n + 1, sym, w.sessionStart, lifo)
  {
    var ex, next := executions[n], RollRow(slots, executions[n], w, lifo);
    if Counts(ex, sym, lifo) {
      assert sym in next && next[sym] == AddRow(SlotFor(slots, ex, lifo), ex, PnlOf(ex, lifo), w);
    } else {
      assert (sym in next <==> sym in slots) && (sym in slots ==> next[sym] == slots[sym]);
      assert ex.symbol == sym ==> ex.realized.None?;
    }
  }

  lemma {:induction false} SlotsAreThere(executions: seq<Row>, n: nat, w: Window, lifo: map<string, LifoResult>,
                                         sym: string)
    requires sym != "" && n <= |executions|
    ensures HasSlot(Roll(executions[..n], w, lifo), executions, n, sym, w.sessionStart, lifo)
  {
    if n > 0 {
      SlotsAreThere(executions, n - 1, w, lifo, sym);
      assert executions[..n][..n - 1] == executions[..n - 1];
      HasSlotNext(Roll(executions[..n - 1], w, lifo), executions, n - 1, sym, w, lifo);
    }
  }

  /** A slot takes its kind and its basis from the first row of the contract that counts. */
  lemma {:induction false} FirstDecides(executions: seq<Row>, n: nat, i: nat, w: Window, lifo: map<string, LifoResult>,
                                        sym: string)
    requires sym != "" && i < n <= |executions| && Counts(executions[i], sym, lifo)
    requires forall j :: 0 <= j < i ==> !Counts(executions[j], sym, lifo)
    ensures var slots, ex := Roll(executions[..n], w, lifo), executions[i];
            && sym in slots && slots[sym].isFuture == ex.isFuture
            && slots[sym].basis == if ex.isFuture && sym in lifo && lifo[sym].Lifo? then "lifo" else "avg"
  {
    assert executions[..n][..n - 1] == executions[..n - 1];
    SlotsAreThere(executions, i, w, lifo, sym);
    if i < n - 1 {
      FirstDecides(executions, n - 1, i, w, lifo, sym);
    }
  }

  /**
   The rollup's entry for a contract. It is there exactly when a figure of the last 24 hours is not zero or a
   futures row that counts is in the session; its figures are the sums over those windows, on both bases.
   */
  lemma {:induction false} RollupMeans(executions: seq<Row>, now: int, hour: nat, lifo: map<string, LifoResult>,
                                       sym: string, rollup: map<string, Slot>)
    requires hour < 24 && sym != ""
    requires var slots := Roll(executions, Window(now - DAY, SessionStart(now, hour)), lifo);
             rollup == map s | s in slots && HasSignal(slots[s]) :: slots[s]
    ensures var n, since, session := |executions|, now - 86_400_000_000, SessionStart(now, hour);
            var pnl, ib := PnlSince(executions, sym, since, lifo), BrokerPnlSince(executions, sym, since);
            && (sym in rollup <==> pnl != 0.0 || ib != 0.0 || Marks(executions, n, sym, session, lifo))
            && (sym in rollup ==>
                  && rollup[sym].pnl24h == pnl && rollup[sym].ib24h == ib
                  && (rollup[sym].pnlSession.Some? <==> Marks(executions, n, sym, session, lifo))
                  && rollup[sym].pnlSession.GetOr(0.0) == SessionPnlSince(executions, sym, session, lifo)
                  && rollup[sym].ibSession.GetOr(0.0) == SessionBrokerPnlSince(executions, sym, session))
  {
    var w := Window(now - DAY, SessionStart(now, hour));
    SlotSums(executions, w, lifo, sym);
    SessionSums(executions, w, lifo, sym);
    SlotsAreThere(executions, |executions|, w, lifo, sym);
    assert executions[..|executions|] == executions;
  }

  // ---- The rows of one contract --------------------------------------------------------------

  /** A contract's rows are the futures rows with its symbol, each as often as it was received. */
  lemma {:induction false} RowsOfExactly(executions: seq<Row>, sym: string, r: Row)
    ensures multiset(RowsOf(executions, sym))[r] == if r.isFuture && r.symbol == sym then multiset(executions)[r] else 0
  {
    if |executions| > 0 {
      var n := |executions| - 1;
      RowsOfExactly(executions[..n], sym, r);
      assert executions == executions[..n] + [executions[n]];
    }
  }
}
