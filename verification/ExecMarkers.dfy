/**
 One chart marker per order, from the account's executions (ib_trader/engine/exec_markers.py). Times are
 microseconds since the epoch; the host's offset from UTC is a parameter.
 */
module ExecMarkers {
  import opened Wrappers
  import opened Tails

  datatype Side = B | S

  datatype Exec = Exec(symbol: string, time: Option<int>, shares: Option<real>, price: Option<real>,
                       perm: int, id: string, side: string)

  /** Fills of one order share a key; without an order id each execution has its own. */
  datatype Key = PerOrder(sym: string, perm: int) | PerFill(sym: string, id: string)

  datatype Fill = Fill(key: Key, time: int, qty: real, price: real, side: Side)

  datatype Group = Group(side: Side, qty: real, notional: real, time: int)

  /** Groups by key, and the keys in order of first appearance. */
  datatype Groups = Groups(order: seq<Key>, at: map<Key, Group>)

  datatype Marker = Marker(time: int, side: Side, qty: real, price: real)

  const MAX_PER_SYMBOL := 300
  const FUTURE_GRACE := 120_000_000

  function SideOf(side: string): Side {
    if side in {"BOT", "BUY", "B"} then B else S
  }

  /** The fill an execution stands for, its time moved by the offset when it is in the future; None skips it. */
  function ToFill(ex: Exec, now: int, offset: int): Option<Fill> {
    if ex.symbol == "" || ex.time.None? || ex.shares.None? || ex.price.None? || ex.shares.value <= 0.0 then None
    else
      Some(Fill(if ex.perm != 0 then PerOrder(ex.symbol, ex.perm) else PerFill(ex.symbol, ex.id),
                if ex.time.value > now + FUTURE_GRACE then ex.time.value + offset else ex.time.value,
                ex.shares.value, ex.price.value, SideOf(ex.side)))
  }

  function Fills(executions: seq<Exec>, now: int, offset: int): seq<Fill> {
    if |executions| == 0 then []
    else
      var before := Fills(executions[..|executions| - 1], now, offset);
      match ToFill(executions[|executions| - 1], now, offset)
      case None => before
      case Some(f) => before + [f]
  }

  function Notional(price: real, qty: real): real {
    price * qty
  }

  function Average(notional: real, qty: real): real
    requires qty != 0.0
  {
    notional / qty
  }

  function Joined(g: Group, f: Fill): Group {
    g.(qty := g.qty + f.qty, notional := g.notional + Notional(f.price, f.qty),
       time := if f.time < g.time then f.time else g.time)
  }

  function Add(g: Groups, f: Fill): Groups {
    if f.key in g.at then g.(at := g.at[f.key := Joined(g.at[f.key], f)])
    else Groups(g.order + [f.key], g.at[f.key := Group(f.side, f.qty, Notional(f.price, f.qty), f.time)])
  }

  function Grouped(fills: seq<Fill>): Groups {
    if |fills| == 0 then Groups([], map[]) else Add(Grouped(fills[..|fills| - 1]), fills[|fills| - 1])
  }

  function MarkerOf(g: Group): Marker {
    Marker(g.time, g.side, g.qty, if g.qty != 0.0 then Average(g.notional, g.qty) else 0.0)
  }

  /** A contract's markers, in the order of its keys. */
  function MarkersOf(order: seq<Key>, at: map<Key, Group>, sym: string): seq<Marker>
    requires forall k :: k in order ==> k in at
  {
    if |order| == 0 then []
    else
      var before, key := MarkersOf(order[..|order| - 1], at, sym), order[|order| - 1];
      if key.sym == sym then before + [MarkerOf(at[key])] else before
  }

  /** Insert a marker after those that are not later. */
  function InsertByTime(ms: seq<Marker>, m: Marker): seq<Marker> {
    if |ms| == 0 then [m]
    else if m.time < ms[0].time then [m] + ms
    else [ms[0]] + InsertByTime(ms[1..], m)
  }

  function SortByTime(ms: seq<Marker>): seq<Marker> {
    if |ms| == 0 then [] else InsertByTime(SortByTime(ms[..|ms| - 1]), ms[|ms| - 1])
  }

  /** A contract's newest markers, in order of time. */
  function Newest(ms: seq<Marker>): seq<Marker> {
    LastN(SortByTime(ms), MAX_PER_SYMBOL)
  }

  /** Every contract's newest markers. */
  function MarkersBySymbol(g: Groups): map<string, seq<Marker>>
    requires forall k :: k in g.order ==> k in g.at
  {
    map i | 0 <= i < |g.order| :: g.order[i].sym := Newest(MarkersOf(g.order, g.at, g.order[i].sym))
  }

  /** The keys in order are those of the map, each once. */
  ghost predicate WellKeyed(g: Groups) {
    && (forall k :: k in g.order <==> k in g.at)
    && (forall i, j :: 0 <= i < j < |g.order| ==> g.order[i] != g.order[j])
  }

  lemma {:induction false} AddKeepsKeys(g: Groups, f: Fill)
    requires WellKeyed(g)
    ensures WellKeyed(Add(g, f))
  {
    if f.key !in g.at {
      var order := g.order + [f.key];
      assert order[|g.order|] == f.key;
      forall k ensures k in order <==> k in g.order || k == f.key {
      }
      forall i, j | 0 <= i < j < |order| ensures order[i] != order[j] {
        assert order[i] in g.order;
      }
    }
  }

  lemma {:induction false} GroupedKeys(fills: seq<Fill>)
    ensures WellKeyed(Grouped(fills))
  {
    if |fills| > 0 {
      GroupedKeys(fills[..|fills| - 1]);
      AddKeepsKeys(Grouped(fills[..|fills| - 1]), fills[|fills| - 1]);
    }
  }

  lemma {:induction false} GroupedNext(executions: seq<Exec>, now: int, offset: int, i: nat)
    requires i < |executions|
    ensures var before, f := Fills(executions[..i], now, offset), ToFill(executions[i], now, offset);
            Grouped(Fills(executions[..i + 1], now, offset))
            == if f.None? then Grouped(before) else Add(Grouped(before), f.value)
  {
    assert executions[..i + 1][..i] == executions[..i];
    var before, f := Fills(executions[..i], now, offset), ToFill(executions[i], now, offset);
    if f.Some? {
      assert (before + [f.value])[..|before|] == before;
    }
  }

  /** Group the fills of the usable executions, one execution at a time. */
  method GroupFills(executions: seq<Exec>, now: int, offset: int) returns (groups: map<Key, Group>, order: seq<Key>)
    ensures Groups(order, groups) == Grouped(Fills(executions, now, offset))
  {
    groups, order := map[], [];
    for i := 0 to |executions|
      invariant Groups(order, groups) == Grouped(Fills(executions[..i], now, offset))
    {
      GroupedNext(executions, now, offset, i);
      var f := ReadFill(executions[i], now, offset);
      if f.Some? {
        groups, order := AddFill(groups, order, f.value);
      }
    }
    assert executions[..|executions|] == executions;
  }

  /** The fill of a usable execution. */
  method ReadFill(ex: Exec, now: int, offset: int) returns (f: Option<Fill>)
    ensures f == ToFill(ex, now, offset)
  {
    if ex.symbol == "" || ex.time.None? || ex.shares.None? || ex.price.None? {
      return None;
    }
    var t := ex.time.value;
    if t > now + FUTURE_GRACE {
      t := t + offset;
    }
    var shares, price := ex.shares.value, ex.price.value;
    if shares <= 0.0 {
      return None;
    }
    var key := if ex.perm != 0 then PerOrder(ex.symbol, ex.perm) else PerFill(ex.symbol, ex.id);
    var side := if ex.side in {"BOT", "BUY", "B"} then B else S;
    return Some(Fill(key, t, shares, price, side));
  }

  /** Start a group with the fill, or sum it into the group of its key. */
  method AddFill(groups: map<Key, Group>, order: seq<Key>, f: Fill) returns (groups': map<Key, Group>, order': seq<Key>)
    ensures Groups(order', groups') == Add(Groups(order, groups), f)
  {
    if f.key !in groups {
      groups' := groups[f.key := Group(f.side, f.qty, Notional(f.price, f.qty), f.time)];
      order' := order + [f.key];
    } else {
      var g := groups[f.key];
      g := g.(qty := g.qty + f.qty, notional := g.notional + Notional(f.price, f.qty));
      if f.time < g.time {
        g := g.(time := f.time);
      }
      groups', order' := groups[f.key := g], order;
    }
  }

  method ComputeExecMarkers(executions: seq<Exec>, now: int, offset: int) returns (bySym: map<string, seq<Marker>>)
    ensures var g := Grouped(Fills(executions, now, offset));
            (forall k :: k in g.order ==> k in g.at) && bySym == MarkersBySymbol(g)
  {
    var groups, order := GroupFills(executions, now, offset);
    GroupedKeys(Fills(executions, now, offset));
    var lists := ListBySymbol(order, groups);
    bySym := map s | s in lists :: Newest(lists[s]);
    ListsSorted(order, groups, lists, bySym);
  }

  lemma {:induction false} ListsSorted(order: seq<Key>, at: map<Key, Group>, lists: map<string, seq<Marker>>,
                                       bySym: map<string, seq<Marker>>)
    requires forall k :: k in order ==> k in at
    requires lists.Keys == set i | 0 <= i < |order| :: order[i].sym
    requires forall s :: s in lists ==> lists[s] == MarkersOf(order, at, s)
    requires bySym.Keys == lists.Keys && forall s :: s in bySym ==> bySym[s] == Newest(lists[s])
    ensures bySym == MarkersBySymbol(Groups(order, at))
  {
    var all := MarkersBySymbol(Groups(order, at));
    assert bySym.Keys == all.Keys;
    forall s | s in bySym ensures bySym[s] == all[s] {
      assert all[s] == Newest(MarkersOf(order, at, s));
    }
  }

  lemma {:induction false} ListNext(order: seq<Key>, groups: map<Key, Group>, i: nat, s: string)
    requires i < |order| && forall k :: k in order ==> k in groups
    ensures MarkersOf(order[..i + 1], groups, s)
         == if order[i].sym == s then MarkersOf(order[..i], groups, s) + [MarkerOf(groups[order[i]])]
            else MarkersOf(order[..i], groups, s)
  {
    assert order[..i + 1][..i] == order[..i];
  }

  /** The contracts listed, each with its markers. */
  ghost predicate Listed(bySym: map<string, seq<Marker>>, order: seq<Key>, groups: map<Key, Group>)
    requires forall k :: k in order ==> k in groups
  {
    && (forall s :: s in bySym ==> bySym[s] == MarkersOf(order, groups, s))
    && (forall s :: s !in bySym ==> MarkersOf(order, groups, s) == [])
  }

  method ListBySymbol(order: seq<Key>, groups: map<Key, Group>) returns (bySym: map<string, seq<Marker>>)
    requires forall k :: k in order ==> k in groups
    ensures bySym.Keys == set i | 0 <= i < |order| :: order[i].sym
    ensures forall s :: s in bySym ==> bySym[s] == MarkersOf(order, groups, s)
  {
    bySym := map[];
    for i := 0 to |order|
      invariant bySym.Keys == set j | 0 <= j < i :: order[j].sym
      invariant Listed(bySym, order[..i], groups)
    {
      bySym := ListMarker(order, groups, i, bySym);
    }
    assert order[..|order|] == order;
  }

  /** Append the marker of one group to its contract's list. */
  method ListMarker(order: seq<Key>, groups: map<Key, Group>, i: nat, bySym: map<string, seq<Marker>>)
    returns (bySym': map<string, seq<Marker>>)
    requires i < |order| && (forall k :: k in order ==> k in groups) && Listed(bySym, order[..i], groups)
    ensures Listed(bySym', order[..i + 1], groups) && bySym'.Keys == bySym.Keys + {order[i].sym}
  {
    var g, sym := groups[order[i]], order[i].sym;
    var price := if g.qty != 0.0 then Average(g.notional, g.qty) else 0.0;
    var before := if sym in bySym then bySym[sym] else [];
    bySym' := bySym[sym := before + [Marker(g.time, g.side, g.qty, price)]];
    forall s ensures MarkersOf(order[..i + 1], groups, s) == if s in bySym' then bySym'[s] else [] {
      ListNext(order, groups, i, s);
    }
  }

  // ---- What a marker says about its order's fills ---------------------------------------

  function OfKey(fills: seq<Fill>, key: Key): seq<Fill> {
    if |fills| == 0 then []
    else
      var before, last := OfKey(fills[..|fills| - 1], key), fills[|fills| - 1];
      if last.key == key then before + [last] else before
  }

  function TotalQty(fills: seq<Fill>): real {
    if |fills| == 0 then 0.0 else TotalQty(fills[..|fills| - 1]) + fills[|fills| - 1].qty
  }

  function TotalNotional(fills: seq<Fill>): real {
    if |fills| == 0 then 0.0
    else TotalNotional(fills[..|fills| - 1]) + Notional(fills[|fills| - 1].price, fills[|fills| - 1].qty)
  }

  ghost predicate Positive(fills: seq<Fill>) {
    forall i :: 0 <= i < |fills| ==> fills[i].qty > 0.0
  }

  lemma {:induction false} FillsArePositive(executions: seq<Exec>, now: int, offset: int)
    ensures Positive(Fills(executions, now, offset))
  {
    if |executions| > 0 {
      FillsArePositive(executions[..|executions| - 1], now, offset);
    }
  }

  /** The time is the earliest of the fills' times. */
  ghost predicate Earliest(time: int, fills: seq<Fill>) {
    (forall i :: 0 <= i < |fills| ==> time <= fills[i].time) && (exists i :: 0 <= i < |fills| && fills[i].time == time)
  }

  /** A group sums up its order's fills. */
  ghost predicate SumsUp(g: Group, fills: seq<Fill>) {
    && |fills| > 0 && g.side == fills[0].side
    && g.qty == TotalQty(fills) && g.notional == TotalNotional(fills) && Earliest(g.time, fills)
  }

  lemma {:induction false} FirstSumsUp(f: Fill)
    ensures SumsUp(Group(f.side, f.qty, Notional(f.price, f.qty), f.time), [f])
  {
    assert [f][..0] == [] && [f][0] == f;
  }

  lemma {:induction false} JoinedSumsUp(g: Group, fills: seq<Fill>, f: Fill)
    requires SumsUp(g, fills)
    ensures SumsUp(Joined(g, f), fills + [f])
  {
    var all, t := fills + [f], Joined(g, f).time;
    assert all[..|fills|] == fills && all[|fills|] == f;
    var i :| 0 <= i < |fills| && fills[i].time == g.time;
    assert all[if f.time < g.time then |fills| else i].time == t;
  }

  /** There is a group for a key exactly when some fill has it, and it sums up those fills. */
  lemma {:induction false} GroupsSumUp(fills: seq<Fill>, key: Key)
    ensures var g, own := Grouped(fills), OfKey(fills, key);
            (key in g.at <==> |own| > 0) && (key in g.at ==> SumsUp(g.at[key], own))
  {
    if |fills| > 0 {
      var n := |fills| - 1;
      var own := OfKey(fills[..n], key);
      GroupsSumUp(fills[..n], key);
      if fills[n].key == key {
        if |own| == 0 {
          FirstSumsUp(fills[n]);
          assert own + [fills[n]] == [fills[n]];
        } else {
          JoinedSumsUp(Grouped(fills[..n]).at[key], own, fills[n]);
        }
      }
    }
  }

  lemma {:induction false} ProductBounds(price: real, qty: real, lo: real, hi: real)
    requires qty > 0.0 && lo <= price <= hi
    ensures lo * qty <= Notional(price, qty) <= hi * qty
  {
  }

  lemma {:induction false} NotionalBounds(fills: seq<Fill>, lo: real, hi: real)
    requires Positive(fills) && forall i :: 0 <= i < |fills| ==> lo <= fills[i].price <= hi
    ensures lo * TotalQty(fills) <= TotalNotional(fills) <= hi * TotalQty(fills)
    ensures |fills| > 0 ==> TotalQty(fills) > 0.0
  {
    if |fills| > 0 {
      var n := |fills| - 1;
      var before, last := fills[..n], fills[n];
      NotionalBounds(before, lo, hi);
      ProductBounds(last.price, last.qty, lo, hi);
      assert |before| == 0 ==> TotalQty(before) == 0.0;
      Distributes(lo, TotalQty(before), last.qty);
      Distributes(hi, TotalQty(before), last.qty);
    }
  }

  lemma {:induction false} Distributes(x: real, a: real, b: real)
    ensures x * (a + b) == x * a + x * b
  {
  }

  lemma {:induction false} AverageBounds(notional: real, qty: real, lo: real, hi: real)
    requires qty > 0.0 && lo * qty <= notional <= hi * qty
    ensures lo <= Average(notional, qty) <= hi
  {
    var a := Average(notional, qty);
    assert a * qty == notional;
  }

  /** A marker's price lies between the lowest and the highest price of its order's fills. */
  lemma {:induction false} PriceBetween(fills: seq<Fill>, key: Key, lo: real, hi: real)
    requires Positive(fills) && key in Grouped(fills).at
    requires forall i :: 0 <= i < |OfKey(fills, key)| ==> lo <= OfKey(fills, key)[i].price <= hi
    ensures lo <= MarkerOf(Grouped(fills).at[key]).price <= hi
  {
    var own := OfKey(fills, key);
    OwnArePositive(fills, key);
    GroupsSumUp(fills, key);
    NotionalBounds(own, lo, hi);
    AverageBounds(TotalNotional(own), TotalQty(own), lo, hi);
  }

  lemma {:induction false} OwnArePositive(fills: seq<Fill>, key: Key)
    requires Positive(fills)
    ensures Positive(OfKey(fills, key))
  {
    if |fills| > 0 {
      OwnArePositive(fills[..|fills| - 1], key);
    }
  }

  // ---- Conservation per contract -----------------------------------------------------------

  function OfSymbol(fills: seq<Fill>, sym: string): seq<Fill> {
    if |fills| == 0 then []
    else
      var before, last := OfSymbol(fills[..|fills| - 1], sym), fills[|fills| - 1];
      if last.key.sym == sym then before + [last] else before
  }

  function MarkedQty(ms: seq<Marker>): real {
    if |ms| == 0 then 0.0 else MarkedQty(ms[..|ms| - 1]) + ms[|ms| - 1].qty
  }

  function MarkedNotional(ms: seq<Marker>): real {
    if |ms| == 0 then 0.0 else MarkedNotional(ms[..|ms| - 1]) + Notional(ms[|ms| - 1].price, ms[|ms| - 1].qty)
  }

  /** Sums of the groups of a contract. */
  function GroupQty(order: seq<Key>, at: map<Key, Group>, sym: string): real
    requires forall k :: k in order ==> k in at
  {
    if |order| == 0 then 0.0
    else
      var before, key := GroupQty(order[..|order| - 1], at, sym), order[|order| - 1];
      if key.sym == sym then before + at[key].qty else before
  }

  function GroupNotional(order: seq<Key>, at: map<Key, Group>, sym: string): real
    requires forall k :: k in order ==> k in at
  {
    if |order| == 0 then 0.0
    else
      var before, key := GroupNotional(order[..|order| - 1], at, sym), order[|order| - 1];
      if key.sym == sym then before + at[key].notional else before
  }

  /** Changing one group changes the sums of its contract by the difference, if its key is among those summed. */
  lemma {:induction false} OneGroupChanges(order: seq<Key>, at: map<Key, Group>, key: Key, g: Group, sym: string)
    requires (forall k :: k in order ==> k in at) && forall i, j :: 0 <= i < j < |order| ==> order[i] != order[j]
    ensures var counts := key in order && key.sym == sym;
            && GroupQty(order, at[key := g], sym)
               == GroupQty(order, at, sym) + (if counts then g.qty - at[key].qty else 0.0)
            && GroupNotional(order, at[key := g], sym)
               == GroupNotional(order, at, sym) + (if counts then g.notional - at[key].notional else 0.0)
  {
    if |order| > 0 {
      var n := |order| - 1;
      OneGroupChanges(order[..n], at, key, g, sym);
      assert order == order[..n] + [order[n]];
      assert key in order <==> key in order[..n] || key == order[n];
      assert key == order[n] ==> key !in order[..n];
    }
  }

  lemma {:induction false} AddConserves(g: Groups, f: Fill, sym: string)
    requires WellKeyed(g) && WellKeyed(Add(g, f))
    ensures var next, counts := Add(g, f), f.key.sym == sym;
            && GroupQty(next.order, next.at, sym) == GroupQty(g.order, g.at, sym) + (if counts then f.qty else 0.0)
            && GroupNotional(next.order, next.at, sym)
               == GroupNotional(g.order, g.at, sym) + (if counts then Notional(f.price, f.qty) else 0.0)
  {
    var next := Add(g, f);
    OneGroupChanges(g.order, g.at, f.key, next.at[f.key], sym);
    if f.key !in g.at {
      assert next.order[..|g.order|] == g.order;
    }
  }

  lemma {:induction false} OfSymbolNext(fills: seq<Fill>, sym: string)
    requires |fills| > 0
    ensures var n := |fills| - 1;
            var before, own, counts := OfSymbol(fills[..n], sym), OfSymbol(fills, sym), fills[n].key.sym == sym;
            && TotalQty(own) == TotalQty(before) + (if counts then fills[n].qty else 0.0)
            && TotalNotional(own)
               == TotalNotional(before) + (if counts then Notional(fills[n].price, fills[n].qty) else 0.0)
  {
    var n := |fills| - 1;
    var before := OfSymbol(fills[..n], sym);
    assert (before + [fills[n]])[..|before|] == before;
  }

  /** The groups of a contract add up to its fills. */
  ghost predicate Conserved(g: Groups, own: seq<Fill>, sym: string) {
    && WellKeyed(g)
    && GroupQty(g.order, g.at, sym) == TotalQty(own)
    && GroupNotional(g.order, g.at, sym) == TotalNotional(own)
  }

  lemma {:induction false} ConservedNext(g: Groups, f: Fill, before: seq<Fill>, own: seq<Fill>, sym: string)
    requires Conserved(g, before, sym)
    requires TotalQty(own) == TotalQty(before) + (if f.key.sym == sym then f.qty else 0.0)
    requires TotalNotional(own) == TotalNotional(before) + (if f.key.sym == sym then Notional(f.price, f.qty) else 0.0)
    ensures Conserved(Add(g, f), own, sym)
  {
    AddKeepsKeys(g, f);
    AddConserves(g, f, sym);
  }

  lemma {:induction false} GroupsConserve(fills: seq<Fill>, sym: string)
    ensures Conserved(Grouped(fills), OfSymbol(fills, sym), sym)
  {
    if |fills| > 0 {
      var n := |fills| - 1;
      GroupsConserve(fills[..n], sym);
      OfSymbolNext(fills, sym);
      ConservedNext(Grouped(fills[..n]), fills[n], OfSymbol(fills[..n], sym), OfSymbol(fills, sym), sym);
    }
  }

  lemma {:induction false} MarkersCarrySums(order: seq<Key>, at: map<Key, Group>, sym: string)
    requires (forall k :: k in order ==> k in at) && forall k :: k in at ==> at[k].qty > 0.0
    ensures var ms := MarkersOf(order, at, sym);
            MarkedQty(ms) == GroupQty(order, at, sym) && MarkedNotional(ms) == GroupNotional(order, at, sym)
  {
    if |order| > 0 {
      var n := |order| - 1;
      var before, g := MarkersOf(order[..n], at, sym), at[order[n]];
      MarkersCarrySums(order[..n], at, sym);
      assert (before + [MarkerOf(g)])[..|before|] == before;
      AverageTimesQty(g.notional, g.qty);
    }
  }

  lemma {:induction false} AverageTimesQty(notional: real, qty: real)
    requires qty > 0.0
    ensures Notional(Average(notional, qty), qty) == notional
  {
  }

  /** Before the cap, a contract's markers carry exactly the quantity and the notional of its fills. */
  lemma {:induction false} MarkersConserve(fills: seq<Fill>, sym: string)
    requires Positive(fills)
    ensures var g, own := Grouped(fills), OfSymbol(fills, sym);
            && (forall k :: k in g.order ==> k in g.at)
            && MarkedQty(MarkersOf(g.order, g.at, sym)) == TotalQty(own)
            && MarkedNotional(MarkersOf(g.order, g.at, sym)) == TotalNotional(own)
  {
    var g := Grouped(fills);
    GroupsConserve(fills, sym);
    forall k | k in g.at ensures g.at[k].qty > 0.0 {
      GroupsSumUp(fills, k);
      OwnArePositive(fills, k);
      QtyPositive(OfKey(fills, k));
    }
    MarkersCarrySums(g.order, g.at, sym);
  }

  lemma {:induction false} QtyPositive(fills: seq<Fill>)
    requires Positive(fills)
    ensures TotalQty(fills) >= 0.0 && (|fills| > 0 ==> TotalQty(fills) > 0.0)
  {
    if |fills| > 0 {
      QtyPositive(fills[..|fills| - 1]);
    }
  }

  // ---- Order and cap -------------------------------------------------------------------

  ghost predicate InOrder(ms: seq<Marker>) {
    forall i, j :: 0 <= i < j < |ms| ==> ms[i].time <= ms[j].time
  }

  lemma {:induction false} InsertAdds(ms: seq<Marker>, m: Marker)
    ensures multiset(InsertByTime(ms, m)) == multiset(ms) + multiset{m}
    ensures forall x :: x in InsertByTime(ms, m) ==> x in ms || x == m
  {
    if |ms| > 0 {
      assert ms == [ms[0]] + ms[1..];
      if m.time >= ms[0].time {
        InsertAdds(ms[1..], m);
      }
    }
  }

  lemma {:induction false} FirstInOrder(m: Marker, rest: seq<Marker>)
    requires InOrder(rest) && forall x :: x in rest ==> m.time <= x.time
    ensures InOrder([m] + rest)
  {
    forall i, j | 0 <= i < j < |rest| + 1 ensures ([m] + rest)[i].time <= ([m] + rest)[j].time {
      assert rest[j - 1] in rest;
    }
  }

  lemma {:induction false} InsertKeepsOrder(ms: seq<Marker>, m: Marker)
    requires InOrder(ms)
    ensures InOrder(InsertByTime(ms, m))
  {
    if |ms| > 0 && m.time < ms[0].time {
      FirstInOrder(m, ms);
    } else if |ms| > 0 {
      InsertKeepsOrder(ms[1..], m);
      InsertAdds(ms[1..], m);
      FirstInOrder(ms[0], InsertByTime(ms[1..], m));
    }
  }

  lemma {:induction false} SortOrders(ms: seq<Marker>)
    ensures InOrder(SortByTime(ms)) && multiset(SortByTime(ms)) == multiset(ms)
  {
    if |ms| > 0 {
      SortOrders(ms[..|ms| - 1]);
      InsertKeepsOrder(SortByTime(ms[..|ms| - 1]), ms[|ms| - 1]);
      InsertAdds(SortByTime(ms[..|ms| - 1]), ms[|ms| - 1]);
      assert ms == ms[..|ms| - 1] + [ms[|ms| - 1]];
    }
  }

  /** The markers the cap drops. */
  function Dropped(ms: seq<Marker>): seq<Marker> {
    var sorted := SortByTime(ms);
    if |sorted| <= MAX_PER_SYMBOL then [] else sorted[..|sorted| - MAX_PER_SYMBOL]
  }

  /** The cap splits the markers, in order of time, and no marker it drops is newer than one it keeps. */
  lemma {:induction false} CapSplits(ms: seq<Marker>)
    ensures multiset(Dropped(ms)) + multiset(Newest(ms)) == multiset(ms)
    ensures InOrder(Newest(ms)) && |Newest(ms)| == if |ms| <= MAX_PER_SYMBOL then |ms| else MAX_PER_SYMBOL
    ensures forall i, j :: 0 <= i < |Dropped(ms)| && 0 <= j < |Newest(ms)| ==> Dropped(ms)[i].time <= Newest(ms)[j].time
  {
    var sorted := SortByTime(ms);
    SortOrders(ms);
    SameLength(sorted, ms);
    assert sorted == Dropped(ms) + Newest(ms);
    CutInOrder(sorted, Dropped(ms), Newest(ms));
  }

  lemma {:induction false} SameLength(a: seq<Marker>, b: seq<Marker>)
    requires multiset(a) == multiset(b)
    ensures |a| == |b|
  {
    assert |multiset(a)| == |a| && |multiset(b)| == |b|;
  }

  lemma {:induction false} CutInOrder(all: seq<Marker>, older: seq<Marker>, newer: seq<Marker>)
    requires InOrder(all) && all == older + newer
    ensures InOrder(newer)
    ensures forall i, j :: 0 <= i < |older| && 0 <= j < |newer| ==> older[i].time <= newer[j].time
  {
    assert forall i :: 0 <= i < |older| ==> older[i] == all[i];
    assert forall j :: 0 <= j < |newer| ==> newer[j] == all[|older| + j];
  }

  /**
   A contract is in the result when it has fills; the result is in order of time, has all its markers up
   to the cap, and no marker the cap drops is newer than one it keeps.
   */
  lemma {:induction false} CapKeepsNewest(fills: seq<Fill>, sym: string)
    ensures var g := Grouped(fills);
            && (forall k :: k in g.order ==> k in g.at)
            && (sym in MarkersBySymbol(g) <==> |OfSymbol(fills, sym)| > 0)
            && (sym in MarkersBySymbol(g) ==>
                  var kept, all := MarkersBySymbol(g)[sym], MarkersOf(g.order, g.at, sym);
                  && InOrder(kept) && |kept| == (if |all| <= MAX_PER_SYMBOL then |all| else MAX_PER_SYMBOL)
                  && multiset(Dropped(all)) + multiset(kept) == multiset(all)
                  && forall i, j :: 0 <= i < |Dropped(all)| && 0 <= j < |kept| ==> Dropped(all)[i].time <= kept[j].time)
  {
    var g := Grouped(fills);
    GroupedKeys(fills);
    SymbolsCovered(fills, sym);
    ResultOf(g, sym);
    CapSplits(MarkersOf(g.order, g.at, sym));
  }

  lemma {:induction false} ResultOf(g: Groups, sym: string)
    requires forall k :: k in g.order ==> k in g.at
    ensures sym in MarkersBySymbol(g) <==> exists k :: k in g.order && k.sym == sym
    ensures sym in MarkersBySymbol(g) ==> MarkersBySymbol(g)[sym] == Newest(MarkersOf(g.order, g.at, sym))
  {
    if k :| k in g.order && k.sym == sym {
      var i :| 0 <= i < |g.order| && g.order[i] == k;
      assert g.order[i].sym in MarkersBySymbol(g);
    }
  }

  lemma {:induction false} SymbolsCovered(fills: seq<Fill>, sym: string)
    ensures (exists k :: k in Grouped(fills).order && k.sym == sym) <==> |OfSymbol(fills, sym)| > 0
  {
    if |fills| > 0 {
      var before, f := Grouped(fills[..|fills| - 1]), fills[|fills| - 1];
      SymbolsCovered(fills[..|fills| - 1], sym);
      GroupedKeys(fills[..|fills| - 1]);
      GroupedKeys(fills);
      assert f.key in Grouped(fills).at;
      assert forall k :: k in before.order ==> k in Grouped(fills).order;
    }
  }
}
