/**
 An ideal client of the diff channel: it keeps the rows of a snapshot by key field and applies every diff
 it is sent. The repository's own client does so for the `bots` channel only (frontend/src/data/store.ts).
 */
module WsReplica {
  import opened Wrappers
  import opened WsChannels

  predicate Keyed(items: seq<Item>) {
    forall i :: 0 <= i < |items| ==> items[i].key.Some?
  }

  /** The key a client finds on a row. */
  function OwnKey(item: Item): Key {
    match item.key
    case Some(name) => Field(name)
    case None => Undefined
  }

  /** Set each row under its key field. */
  function Put(rows: map<Key, Item>, items: seq<Item>): map<Key, Item> {
    if |items| == 0 then rows
    else Put(rows, items[..|items| - 1])[OwnKey(items[|items| - 1]) := items[|items| - 1]]
  }

  function Names(items: seq<Item>): set<Key> {
    if |items| == 0 then {} else Names(items[..|items| - 1]) + {OwnKey(items[|items| - 1])}
  }

  /** What a client holds after a snapshot. */
  function Rows(items: seq<Item>): map<Key, Item> {
    Put(map[], items)
  }

  /** Drop the removed rows, then set the added and the updated ones. */
  function Apply(rows: map<Key, Item>, d: Diff): map<Key, Item> {
    Put(Put(rows - Names(d.removed), d.added), d.updated)
  }

  /** The diff takes a client from the rows of one list to those of the other. */
  predicate CarriesOver(was: seq<Item>, now: seq<Item>) {
    Apply(Rows(was), ComputeDiff(was, now)) == Rows(now)
  }

  // ---- Where a picked row lands ---------------------------------------------------

  /** The key under which a client files a row that the server knows by `k`. */
  function ClientKey(k: Key): Key {
    if k.Index? then Undefined else k
  }

  /** Rows that a client files where it should. */
  ghost predicate Filed(rows: map<Key, Item>) {
    forall k :: k in rows ==> k != Undefined && OwnKey(rows[k]) == ClientKey(k)
  }

  /** The last of the wanted keys whose row lands under `c`. */
  function Landed(keys: seq<Key>, wanted: set<Key>, c: Key): Option<Key> {
    if |keys| == 0 then None
    else
      var k := keys[|keys| - 1];
      if k in wanted && ClientKey(k) == c then Some(k) else Landed(keys[..|keys| - 1], wanted, c)
  }

  function At(rows: map<Key, Item>, c: Key): Option<Item> {
    if c in rows then Some(rows[c]) else None
  }

  lemma {:induction false} LandedIsWanted(keys: seq<Key>, wanted: set<Key>, c: Key)
    ensures match Landed(keys, wanted, c)
            case Some(k) => k in keys && k in wanted && ClientKey(k) == c
            case None => forall k :: k in keys && k in wanted ==> ClientKey(k) != c
  {
    if |keys| > 0 {
      LandedIsWanted(keys[..|keys| - 1], wanted, c);
      assert keys == keys[..|keys| - 1] + [keys[|keys| - 1]];
    }
  }

  lemma {:induction false} LandedAgree(keys: seq<Key>, a: set<Key>, b: set<Key>, c: Key)
    requires forall k :: k in keys ==> (k in a <==> k in b)
    ensures Landed(keys, a, c) == Landed(keys, b, c)
  {
    if |keys| > 0 {
      LandedAgree(keys[..|keys| - 1], a, b, c);
    }
  }

  /** Setting picked rows: under every key the last one that lands there, or what was there before. */
  lemma {:induction false} PutPicked(base: map<Key, Item>, keys: seq<Key>, rows: map<Key, Item>, wanted: set<Key>,
                                     c: Key)
    requires Filed(rows) && forall k :: k in keys ==> k in rows
    ensures c in Names(Pick(keys, rows, wanted)) <==> Landed(keys, wanted, c).Some?
    ensures At(Put(base, Pick(keys, rows, wanted)), c)
         == match Landed(keys, wanted, c) case Some(k) => At(rows, k) case None => At(base, c)
  {
    LandedIsWanted(keys, wanted, c);
    if |keys| > 0 {
      var n := |keys| - 1;
      var before, picked := Pick(keys[..n], rows, wanted), Pick(keys, rows, wanted);
      PutPicked(base, keys[..n], rows, wanted, c);
      LandedIsWanted(keys[..n], wanted, c);
      if keys[n] in wanted {
        assert picked[..|picked| - 1] == before && OwnKey(picked[|picked| - 1]) == ClientKey(keys[n]);
      }
    }
  }

  lemma {:induction false} ByKeyIsFiled(items: seq<Item>)
    ensures Filed(ByKey(items))
  {
    if |items| > 0 {
      ByKeyIsFiled(items[..|items| - 1]);
    }
  }

  /** The positions of rows without the key field. */
  function Unkeyed(items: seq<Item>): set<nat> {
    set i: nat | i < |items| && items[i].key.None?
  }

  lemma {:induction false} IndexIsPosition(items: seq<Item>, i: nat)
    ensures Index(i) in ByKey(items) <==> i in Unkeyed(items)
    ensures i in Unkeyed(items) ==> ByKey(items)[Index(i)] == items[i]
  {
    if |items| > 0 {
      IndexIsPosition(items[..|items| - 1], i);
    }
  }

  /** A key field has no other key to share its place with. */
  lemma {:induction false} OneField(keys: seq<Key>, wanted: set<Key>, k: Key)
    requires k in keys && k in wanted && k.Field?
    ensures Landed(keys, wanted, k) == Some(k)
  {
    LandedIsWanted(keys, wanted, k);
  }

  /** One more row: its key comes last, unless it is a key field that is there already. */
  lemma {:induction false} LandedNext(items: seq<Item>, wanted: set<Key>, c: Key)
    requires |items| > 0
    ensures var n := |items| - 1;
            var key := KeyAt(items, n);
            Landed(Keys(items), wanted, c)
            == if key in wanted && ClientKey(key) == c then Some(key) else Landed(Keys(items[..n]), wanted, c)
  {
    var n := |items| - 1;
    var key := KeyAt(items, n);
    IndexIsPosition(items[..n], n);
    if key in Keys(items[..n]) && key in wanted && ClientKey(key) == c {
      OneField(Keys(items[..n]), wanted, key);
    }
  }

  /** A snapshot leaves under every key the last row that lands there. */
  lemma {:induction false} RowsAt(items: seq<Item>, c: Key)
    ensures At(Rows(items), c)
         == match Landed(Keys(items), ByKey(items).Keys, c) case Some(k) => At(ByKey(items), k) case None => None
  {
    if |items| > 0 {
      var before, key := items[..|items| - 1], KeyAt(items, |items| - 1);
      RowsAt(before, c);
      LandedNext(items, ByKey(items).Keys, c);
      LandedAgree(Keys(before), ByKey(before).Keys, ByKey(items).Keys, c);
      LandedIsWanted(Keys(before), ByKey(items).Keys, c);
    }
  }

  /** What a diff leaves under a key: an updated row, else an added one, else what was not removed. */
  lemma {:induction false} AppliedAt(was: seq<Item>, now: seq<Item>, c: Key)
    ensures var a, b := ByKey(was), ByKey(now);
            At(Apply(Rows(was), ComputeDiff(was, now)), c)
            == match Landed(Keys(now), Changed(a, b), c)
               case Some(k) => At(b, k)
               case None =>
                 match Landed(Keys(now), b.Keys - a.Keys, c)
                 case Some(k) => At(b, k)
                 case None => if Landed(Keys(was), a.Keys - b.Keys, c).Some? then None else At(Rows(was), c)
  {
    var a, b, d := ByKey(was), ByKey(now), ComputeDiff(was, now);
    ByKeyIsFiled(was);
    ByKeyIsFiled(now);
    PutPicked(map[], Keys(was), a, a.Keys - b.Keys, c);
    var kept := Rows(was) - Names(d.removed);
    PutPicked(kept, Keys(now), b, b.Keys - a.Keys, c);
    PutPicked(Put(kept, d.added), Keys(now), b, Changed(a, b), c);
  }

  // ---- Rows without a key field ------------------------------------------------------

  /** No position holds such a row in both lists, or only one position does in either. */
  predicate Followable(was: seq<Item>, now: seq<Item>) {
    Unkeyed(was) !! Unkeyed(now) || |Unkeyed(was) + Unkeyed(now)| <= 1
  }

  /** The last position of a wanted row without the key field. */
  function LastWanted(items: seq<Item>, wanted: set<Key>): Option<Key> {
    if |items| == 0 then None
    else
      var k := Index(|items| - 1);
      if items[|items| - 1].key.None? && k in wanted then Some(k) else LastWanted(items[..|items| - 1], wanted)
  }

  lemma {:induction false} LastWantedLands(items: seq<Item>, wanted: set<Key>)
    requires Undefined !in wanted
    ensures Landed(Keys(items), wanted, Undefined) == LastWanted(items, wanted)
  {
    if |items| > 0 {
      LandedNext(items, wanted, Undefined);
      LastWantedLands(items[..|items| - 1], wanted);
    }
  }

  lemma {:induction false} LastWantedIs(items: seq<Item>, wanted: set<Key>, i: nat)
    requires i < |items| && items[i].key.None? && Index(i) in wanted
    ensures match LastWanted(items, wanted)
            case Some(k) => k.Index? && k in wanted && i <= k.at < |items| && items[k.at].key.None?
            case None => false
  {
    var n := |items| - 1;
    if !(items[n].key.None? && Index(n) in wanted) {
      LastWantedIs(items[..n], wanted, i);
    }
  }

  /** Of wanted rows without the key field the one at the last position lands. */
  lemma {:induction false} LastPosition(items: seq<Item>, wanted: set<Key>, i: nat, k: Option<Key>)
    requires i in Unkeyed(items) && Index(i) in wanted && Undefined !in wanted
    requires k == Landed(Keys(items), wanted, Undefined)
    ensures k.Some? && k.value.Index? && k.value.at in Unkeyed(items) && k.value in wanted && i <= k.value.at
  {
    LastWantedLands(items, wanted);
    LastWantedIs(items, wanted, i);
  }

  lemma {:induction false} NoneUnkeyed(items: seq<Item>, wanted: set<Key>)
    requires forall i :: i in Unkeyed(items) ==> Index(i) !in wanted
    ensures Landed(Keys(items), wanted, Undefined) == None
  {
    LandedIsWanted(Keys(items), wanted, Undefined);
    ByKeyIsFiled(items);
    var k := Landed(Keys(items), wanted, Undefined);
    if k.Some? && k.value.Index? {
      IndexIsPosition(items, k.value.at);
    }
  }

  /** Rows with a key field are carried over whatever the others are. */
  lemma {:induction false} FieldsCarryOver(was: seq<Item>, now: seq<Item>, name: string)
    ensures At(Apply(Rows(was), ComputeDiff(was, now)), Field(name)) == At(Rows(now), Field(name))
  {
    var c, a, b := Field(name), ByKey(was), ByKey(now);
    AppliedAt(was, now, c);
    RowsAt(was, c);
    RowsAt(now, c);
    FieldLands(Keys(now), Changed(a, b), c);
    FieldLands(Keys(now), b.Keys - a.Keys, c);
    FieldLands(Keys(was), a.Keys - b.Keys, c);
    FieldLands(Keys(was), a.Keys, c);
    FieldLands(Keys(now), b.Keys, c);
  }

  lemma {:induction false} FieldLands(keys: seq<Key>, wanted: set<Key>, c: Key)
    requires c.Field?
    ensures Landed(keys, wanted, c) == if c in keys && c in wanted then Some(c) else None
  {
    LandedIsWanted(keys, wanted, c);
    if c in keys && c in wanted {
      OneField(keys, wanted, c);
    }
  }

  /** No client files a row by position. */
  lemma {:induction false} NoIndex(was: seq<Item>, now: seq<Item>, i: nat)
    ensures At(Apply(Rows(was), ComputeDiff(was, now)), Index(i)) == At(Rows(now), Index(i)) == None
  {
    var c, a, b := Index(i), ByKey(was), ByKey(now);
    AppliedAt(was, now, c);
    RowsAt(was, c);
    RowsAt(now, c);
    NothingAtIndex(Keys(now), Changed(a, b), i);
    NothingAtIndex(Keys(now), b.Keys - a.Keys, i);
    NothingAtIndex(Keys(was), a.Keys, i);
    NothingAtIndex(Keys(now), b.Keys, i);
  }

  lemma {:induction false} NothingAtIndex(keys: seq<Key>, wanted: set<Key>, i: nat)
    ensures Landed(keys, wanted, Index(i)) == None
  {
    LandedIsWanted(keys, wanted, Index(i));
  }

  /** The greatest of some positions. */
  ghost function Max(s: set<nat>): (m: nat)
    requires s != {}
    ensures m in s && forall i :: i in s ==> i <= m
    decreases |s|
  {
    var x :| x in s;
    assert s == {x} + (s - {x});
    if s == {x} then x
    else
      var m := Max(s - {x});
      if x > m then x else m
  }

  /** The positions of wanted rows without the key field. */
  ghost function WantedAt(items: seq<Item>, wanted: set<Key>): set<nat> {
    set i | i in Unkeyed(items) && Index(i) in wanted
  }

  lemma {:induction false} LandsAtMax(items: seq<Item>, wanted: set<Key>, s: set<nat>)
    requires s == WantedAt(items, wanted) && Undefined !in wanted
    ensures Landed(Keys(items), wanted, Undefined) == if s == {} then None else Some(Index(Max(s)))
  {
    assert forall i :: i in Unkeyed(items) && Index(i) in wanted ==> i in s;
    if s == {} {
      NoneUnkeyed(items, wanted);
    } else {
      var k := Landed(Keys(items), wanted, Undefined);
      assert Max(s) in s;
      LastPosition(items, wanted, Max(s), k);
      assert k.value.at in s;
    }
  }

  /** The row of a position, under the place of the rows without a key field. */
  ghost function Last(items: seq<Item>, s: set<nat>): Option<Item>
    requires s <= Unkeyed(items)
  {
    if s == {} then None else Some(items[Max(s)])
  }

  /** The positions at which both lists have such a row, and not the same one. */
  ghost function Differing(was: seq<Item>, now: seq<Item>): set<nat> {
    set i | i in Unkeyed(was) && i in Unkeyed(now) && was[i] != now[i]
  }

  lemma {:induction false} NotUndefined(items: seq<Item>)
    ensures Undefined !in ByKey(items)
  {
    if |items| > 0 {
      NotUndefined(items[..|items| - 1]);
    }
  }

  /** The row that lands when those of the positions `s` are wanted. */
  lemma {:induction false} LandedRow(items: seq<Item>, wanted: set<Key>, s: set<nat>)
    requires s == WantedAt(items, wanted) && wanted <= ByKey(items).Keys
    ensures var k := Landed(Keys(items), wanted, Undefined);
            && (k.None? <==> s == {})
            && (k.Some? ==> At(ByKey(items), k.value) == Last(items, s))
  {
    NotUndefined(items);
    LandsAtMax(items, wanted, s);
    if s != {} {
      IndexIsPosition(items, Max(s));
    }
  }

  lemma {:induction false} RowsAtUndefined(items: seq<Item>)
    ensures At(Rows(items), Undefined) == Last(items, Unkeyed(items))
  {
    forall i ensures i in Unkeyed(items) <==> i in WantedAt(items, ByKey(items).Keys) {
      IndexIsPosition(items, i);
    }
    RowsAt(items, Undefined);
    LandedRow(items, ByKey(items).Keys, Unkeyed(items));
  }

  /** What a diff makes of the rows without a key field: a changed one, else a new one, else none if any is gone. */
  ghost function Misfiled(was: seq<Item>, now: seq<Item>): Option<Item> {
    var u, v, d := Unkeyed(was), Unkeyed(now), Differing(was, now);
    if d != {} then Last(now, d)
    else if v - u != {} then Last(now, v - u)
    else if u - v != {} then None
    else Last(was, u)
  }

  lemma {:induction false} DiffPositions(was: seq<Item>, now: seq<Item>)
    ensures var a, b := ByKey(was), ByKey(now);
            && WantedAt(now, Changed(a, b)) == Differing(was, now)
            && WantedAt(now, b.Keys - a.Keys) == Unkeyed(now) - Unkeyed(was)
            && WantedAt(was, a.Keys - b.Keys) == Unkeyed(was) - Unkeyed(now)
  {
    var a, b := ByKey(was), ByKey(now);
    forall i: nat
      ensures i in WantedAt(now, Changed(a, b)) <==> i in Differing(was, now)
      ensures i in WantedAt(now, b.Keys - a.Keys) <==> i in Unkeyed(now) - Unkeyed(was)
      ensures i in WantedAt(was, a.Keys - b.Keys) <==> i in Unkeyed(was) - Unkeyed(now)
    {
      IndexIsPosition(was, i);
      IndexIsPosition(now, i);
    }
  }

  lemma {:induction false} AppliedAtUndefined(was: seq<Item>, now: seq<Item>)
    ensures At(Apply(Rows(was), ComputeDiff(was, now)), Undefined) == Misfiled(was, now)
  {
    var a, b := ByKey(was), ByKey(now);
    var u, v, d := Unkeyed(was), Unkeyed(now), Differing(was, now);
    DiffPositions(was, now);
    AppliedAt(was, now, Undefined);
    LandedRow(now, Changed(a, b), d);
    LandedRow(now, b.Keys - a.Keys, v - u);
    LandedRow(was, a.Keys - b.Keys, u - v);
    RowsAtUndefined(was);
  }

  /** The place of the rows without a key field, in a diff between lists that can be followed. */
  lemma {:induction false} UnkeyedCarryOver(was: seq<Item>, now: seq<Item>)
    requires Followable(was, now)
    ensures Misfiled(was, now) == Last(now, Unkeyed(now))
  {
    var u, v := Unkeyed(was), Unkeyed(now);
    if u !! v {
      assert Differing(was, now) == {} && v - u == v && u - v == u;
    } else {
      var i :| i in u && i in v;
      OnePosition(u + v, i);
      assert u == v == {i};
    }
  }

  lemma {:induction false} OnePosition(s: set<nat>, i: nat)
    requires i in s && |s| <= 1
    ensures s == {i}
  {
    if exists j :: j in s && j != i {
      var j :| j in s && j != i;
      SubsetSize({i, j}, s);
    }
  }

  lemma {:induction false} SubsetSize(a: set<nat>, b: set<nat>)
    requires a <= b
    ensures |a| <= |b|
  {
    assert b == a + (b - a);
  }

  lemma {:induction false} SameRows(a: map<Key, Item>, b: map<Key, Item>)
    requires forall c :: At(a, c) == At(b, c)
    ensures a == b
  {
    assert forall c :: (c in a <==> At(a, c).Some?) && (c in b <==> At(b, c).Some?);
    assert forall c :: c in a ==> At(a, c) == At(b, c) && a[c] == b[c];
  }

  /** The diff carries a client over whenever the rows without a key field, if any, can be followed. */
  lemma {:induction false} DiffCarriesOver(was: seq<Item>, now: seq<Item>)
    requires Followable(was, now)
    ensures CarriesOver(was, now)
  {
    var after := Apply(Rows(was), ComputeDiff(was, now));
    forall c ensures At(after, c) == At(Rows(now), c) {
      match c
      case Field(name) => FieldsCarryOver(was, now, name);
      case Index(i) => NoIndex(was, now, i);
      case Undefined =>
        AppliedAtUndefined(was, now);
        RowsAtUndefined(now);
        UnkeyedCarryOver(was, now);
    }
    SameRows(after, Rows(now));
  }

  // ---- When they cannot be followed -----------------------------------------------------

  /** The lists differ at most in what the rows hold beside the key field. */
  ghost predicate SameKeys(a: seq<Item>, b: seq<Item>) {
    |a| == |b| && forall i :: 0 <= i < |a| ==> a[i].key == b[i].key
  }

  lemma {:induction false} SameUnkeyed(a: seq<Item>, b: seq<Item>)
    requires SameKeys(a, b)
    ensures Unkeyed(a) == Unkeyed(b)
  {
  }

  function Text(i: nat): string {
    seq(i, _ => 'x')
  }

  /** The list with a different text in every row, and another one still in row `changed`. */
  function Painted(items: seq<Item>, changed: int): seq<Item> {
    seq(|items|, i requires 0 <= i < |items| => items[i].(body := if i == changed then "y" else Text(i)))
  }

  lemma {:induction false} PaintedSame(items: seq<Item>, changed: int)
    ensures SameKeys(Painted(items, changed), items) && Unkeyed(Painted(items, changed)) == Unkeyed(items)
  {
  }

  lemma {:induction false} TextsDiffer(i: nat, j: nat)
    requires Text(i) == Text(j)
    ensures i == j
  {
    assert |Text(i)| == i && |Text(j)| == j;
  }

  /** Row `changed` is the only one of the painted lists' common positions that differs. */
  lemma {:induction false} PaintedDiffer(was: seq<Item>, now: seq<Item>, changed: int)
    ensures var both := Unkeyed(was) * Unkeyed(now);
            Differing(Painted(was, changed), Painted(now, -1)) == set i | i in both && i == changed
  {
    PaintedSame(was, changed);
    PaintedSame(now, -1);
    forall i: nat ensures Text(i) != "y" {
      assert i == 1 ==> Text(i)[0] == 'x';
    }
  }

  lemma {:induction false} PaintedApart(items: seq<Item>, i: nat, j: nat)
    requires i < |items| && j < |items| && i != j
    ensures Painted(items, -1)[i] != Painted(items, -1)[j]
  {
    if Text(i) == Text(j) {
      TextsDiffer(i, j);
    }
  }

  lemma {:induction false} WrongRow(w: seq<Item>, n: seq<Item>)
    requires Misfiled(w, n) != Last(n, Unkeyed(n))
    ensures !CarriesOver(w, n)
  {
    AppliedAtUndefined(w, n);
    RowsAtUndefined(n);
  }

  /** A row changes that both lists have, and is not the last of the second. */
  lemma {:induction false} MisledByChange(was: seq<Item>, now: seq<Item>, i: nat)
    requires i in Unkeyed(was) && i in Unkeyed(now) && i != Max(Unkeyed(now))
    ensures !CarriesOver(Painted(was, i), Painted(now, -1))
  {
    var w, n := Painted(was, i), Painted(now, -1);
    PaintedSame(was, i);
    PaintedSame(now, -1);
    PaintedDiffer(was, now, i);
    assert Differing(w, n) == {i};
    assert Max({i}) == i;
    PaintedApart(now, i, Max(Unkeyed(now)));
    WrongRow(w, n);
  }

  /** Nothing changes, the last row of the second list is in both, and another position is new or gone. */
  lemma {:induction false} MisledByOther(was: seq<Item>, now: seq<Item>, m: nat)
    requires Unkeyed(was) * Unkeyed(now) == {m} && m == Max(Unkeyed(now)) && Unkeyed(was) + Unkeyed(now) != {m}
    ensures !CarriesOver(Painted(was, -1), Painted(now, -1))
  {
    var w, n, u, v := Painted(was, -1), Painted(now, -1), Unkeyed(was), Unkeyed(now);
    PaintedSame(was, -1);
    PaintedSame(now, -1);
    PaintedDiffer(was, now, -1);
    assert Differing(w, n) == {};
    if v - u != {} {
      PaintedApart(now, Max(v - u), m);
    } else {
      assert u - v != {};
    }
    WrongRow(w, n);
  }

  /** Lists that cannot be followed mislead a client for some contents of their rows. */
  lemma {:induction false} Misled(was: seq<Item>, now: seq<Item>)
    requires !Followable(was, now)
    ensures exists w, n :: SameKeys(w, was) && SameKeys(n, now) && !CarriesOver(w, n)
  {
    var u, v := Unkeyed(was), Unkeyed(now);
    var i :| i in u && i in v;
    var m := Max(v);
    PaintedSame(now, -1);
    if k :| k in u && k in v && k != m {
      PaintedSame(was, k);
      MisledByChange(was, now, k);
    } else {
      assert i == m && u * v == {m};
      NotAlone(u + v, m);
      PaintedSame(was, -1);
      MisledByOther(was, now, m);
    }
  }

  lemma {:induction false} NotAlone(s: set<nat>, m: nat)
    requires |s| > 1
    ensures s - {m} != {}
  {
    if s - {m} == {} {
      SubsetSize(s, {m});
    }
  }

  /**
   The diffs between two lists carry a client over, whatever their rows hold, exactly when no position is
   without the key field in both lists, or no other position is in either.
   */
  lemma {:induction false} FollowedExactly(was: seq<Item>, now: seq<Item>)
    ensures (forall w, n :: SameKeys(w, was) && SameKeys(n, now) ==> CarriesOver(w, n)) <==> Followable(was, now)
  {
    if Followable(was, now) {
      forall w, n | SameKeys(w, was) && SameKeys(n, now) ensures CarriesOver(w, n) {
        SameUnkeyed(w, was);
        SameUnkeyed(n, now);
        DiffCarriesOver(w, n);
      }
    } else {
      Misled(was, now);
    }
  }

  /** For one: dropping the second of two rows without the key field takes both from the client. */
  lemma {:induction false} UnkeyedRowsDiverge(a: Item, b: Item)
    requires a.key.None? && b.key.None?
    ensures !CarriesOver([a, b], [a])
  {
    var w, n := [a, b], [a];
    assert Unkeyed(w) == {0, 1} && Unkeyed(n) == {0};
    assert Differing(w, n) == {} && Unkeyed(n) - Unkeyed(w) == {} && 1 in Unkeyed(w) - Unkeyed(n);
    AppliedAtUndefined(w, n);
    RowsAtUndefined(n);
  }

  // ---- One update --------------------------------------------------------------------------

  lemma {:induction false} KeyedFollowable(was: seq<Item>, now: seq<Item>)
    requires Keyed(was) && Keyed(now)
    ensures Followable(was, now)
  {
    assert Unkeyed(was) == {} && Unkeyed(now) == {};
  }

  /** What a client holds after an update that may have sent it a diff. */
  function Received(rows: map<Key, Item>, diff: Option<Diff>): map<Key, Item> {
    if diff.Some? then Apply(rows, diff.value) else rows
  }

  /**
   One update takes a client from the channel's rows to the new ones, and sends nothing exactly when the
   server knows the same rows by the same keys.
   */
  lemma {:induction false} UpdateKeepsReplica(hashOf: seq<Item> -> string, c: Channel, newData: seq<Item>)
    requires Faithful(hashOf) && Hashed(hashOf, c) && Followable(c.data, newData)
    ensures var (next, diff) := Updated(hashOf, c, newData);
            && next.data == newData && Hashed(hashOf, next)
            && Received(Rows(c.data), diff) == Rows(newData)
            && (diff.None? <==> ByKey(c.data) == ByKey(newData))
  {
    DiffCarriesOver(c.data, newData);
    EmptyDiffIff(c.data, newData);
    if IsEmpty(ComputeDiff(c.data, newData)) {
      NothingToSend(c.data, newData);
    }
  }

  lemma {:induction false} NothingToSend(was: seq<Item>, now: seq<Item>)
    requires Followable(was, now) && IsEmpty(ComputeDiff(was, now))
    ensures Rows(was) == Rows(now)
  {
    DiffCarriesOver(was, now);
    assert Rows(was) - {} == Rows(was);
  }
}
