/** Channel snapshots and the diffs between them (ib_trader/api/ws.py, _compute_diff and _ChannelState). */
module WsChannels {
  import opened Wrappers

  /** A row of a channel; `key` is its key field, which it may lack, and `body` stands for the rest. */
  datatype Item = Item(key: Option<string>, body: string)

  /** A row without the key field is known by its position; a client finds the same undefined key on all of them. */
  datatype Key = Field(name: string) | Index(at: nat) | Undefined

  datatype Diff = Diff(added: seq<Item>, updated: seq<Item>, removed: seq<Item>)

  function KeyAt(items: seq<Item>, i: nat): Key
    requires i < |items|
  {
    match items[i].key
    case Some(name) => Field(name)
    case None => Index(i)
  }

  /** The rows by key; the last of several rows with one key counts. */
  function ByKey(items: seq<Item>): map<Key, Item> {
    if |items| == 0 then map[]
    else ByKey(items[..|items| - 1])[KeyAt(items, |items| - 1) := items[|items| - 1]]
  }

  /** The keys, in order of first appearance. */
  function Keys(items: seq<Item>): (r: seq<Key>)
    ensures forall k :: k in r <==> k in ByKey(items)
  {
    if |items| == 0 then []
    else
      var before, key := Keys(items[..|items| - 1]), KeyAt(items, |items| - 1);
      if key in before then before else before + [key]
  }

  /** The rows of those keys that are wanted, in the order of the keys. */
  function Pick(keys: seq<Key>, rows: map<Key, Item>, wanted: set<Key>): seq<Item>
    requires forall k :: k in keys ==> k in rows
  {
    if |keys| == 0 then []
    else
      var before, key := Pick(keys[..|keys| - 1], rows, wanted), keys[|keys| - 1];
      if key in wanted then before + [rows[key]] else before
  }

  /** The keys in both whose rows differ. */
  function Changed(a: map<Key, Item>, b: map<Key, Item>): set<Key> {
    set k | k in b && k in a && b[k] != a[k]
  }

  function ComputeDiff(was: seq<Item>, now: seq<Item>): Diff {
    var oldMap, newMap := ByKey(was), ByKey(now);
    Diff(Pick(Keys(now), newMap, newMap.Keys - oldMap.Keys),
         Pick(Keys(now), newMap, Changed(oldMap, newMap)),
         Pick(Keys(was), oldMap, oldMap.Keys - newMap.Keys))
  }

  predicate IsEmpty(d: Diff) {
    |d.added| == 0 && |d.updated| == 0 && |d.removed| == 0
  }

  // ---- A channel's server side ------------------------------------------------

  class ChannelState {
    const hashOf: seq<Item> -> string
    var data: seq<Item>
    var hash: string

    constructor (hashOf: seq<Item> -> string)
      ensures this.hashOf == hashOf && data == [] && hash == ""
    {
      this.hashOf, data, hash := hashOf, [], "";
    }

    /** Take the new rows; the result is what changed, None when nothing did. */
    method Update(newData: seq<Item>) returns (diff: Option<Diff>)
      modifies this
      ensures (Channel(data, hash), diff) == Updated(hashOf, Channel(old(data), old(hash)), newData)
    {
      var newHash := hashOf(newData);
      if newHash == hash {
        return None;
      }
      var d := ComputeDiff(data, newData);
      data, hash := newData, newHash;
      if |d.added| == 0 && |d.updated| == 0 && |d.removed| == 0 {
        return None;
      }
      return Some(d);
    }
  }

  datatype Channel = Channel(data: seq<Item>, hash: string)

  function Updated(hashOf: seq<Item> -> string, c: Channel, newData: seq<Item>): (Channel, Option<Diff>) {
    if hashOf(newData) == c.hash then (c, None)
    else
      var d := ComputeDiff(c.data, newData);
      (Channel(newData, hashOf(newData)), if IsEmpty(d) then None else Some(d))
  }

  /** A digest that tells any two row lists apart and is never the empty text a new channel starts with. */
  ghost predicate Faithful(hashOf: seq<Item> -> string) {
    && (forall a :: hashOf(a) != "")
    && (forall a, b :: hashOf(a) == hashOf(b) ==> a == b)
  }

  ghost predicate Hashed(hashOf: seq<Item> -> string, c: Channel) {
    c.hash == hashOf(c.data) || (c.hash == "" && c.data == [])
  }

  // ---- When nothing is sent -----------------------------------------------------

  lemma {:induction false} PickedEmpty(keys: seq<Key>, rows: map<Key, Item>, wanted: set<Key>)
    requires forall k :: k in keys ==> k in rows
    ensures |Pick(keys, rows, wanted)| == 0 <==> forall k :: k in keys ==> k !in wanted
  {
    if |keys| > 0 {
      PickedEmpty(keys[..|keys| - 1], rows, wanted);
      assert keys == keys[..|keys| - 1] + [keys[|keys| - 1]];
    }
  }

  /** A diff is empty exactly when the two lists hold the same rows by key, whatever their order. */
  lemma {:induction false} EmptyDiffIff(was: seq<Item>, now: seq<Item>)
    ensures IsEmpty(ComputeDiff(was, now)) <==> ByKey(was) == ByKey(now)
  {
    var a, b := ByKey(was), ByKey(now);
    PickedEmpty(Keys(now), b, b.Keys - a.Keys);
    PickedEmpty(Keys(now), b, Changed(a, b));
    PickedEmpty(Keys(was), a, a.Keys - b.Keys);
    NoChange(a, b);
  }

  lemma {:induction false} NoChange(a: map<Key, Item>, b: map<Key, Item>)
    ensures a == b <==> (forall k :: k in b ==> k !in b.Keys - a.Keys && k !in Changed(a, b))
                        && (forall k :: k in a ==> k !in a.Keys - b.Keys)
  {
    if (forall k :: k in b ==> k !in b.Keys - a.Keys && k !in Changed(a, b))
       && (forall k :: k in a ==> k !in a.Keys - b.Keys) {
      assert forall k :: k in a ==> k in b && a[k] == b[k];
    }
  }

  // ---- What a diff says --------------------------------------------------------------

  /** One row by its key field, or one position when both lack it. */
  predicate SameRow(a: seq<Item>, i: nat, b: seq<Item>, j: nat)
    requires i < |a| && j < |b|
  {
    a[i].key == b[j].key && (a[i].key.None? ==> i == j)
  }

  /** The row counts: no later one is the same. */
  ghost predicate Counts(items: seq<Item>, i: nat)
    requires i < |items|
  {
    forall j :: i < j < |items| ==> !SameRow(items, i, items, j)
  }

  lemma {:induction false} KeyedRow(items: seq<Item>, i: nat)
    requires i < |items|
    ensures KeyAt(items, i) in ByKey(items) && (Counts(items, i) ==> ByKey(items)[KeyAt(items, i)] == items[i])
  {
    var n := |items| - 1;
    if i < n {
      KeyedRow(items[..n], i);
      if Counts(items, i) {
        assert !SameRow(items, i, items, n);
        forall j | i < j < n ensures !SameRow(items[..n], i, items[..n], j) {
          assert !SameRow(items, i, items, j);
        }
      }
    }
  }

  lemma {:induction false} RowOfKey(items: seq<Item>, k: Key) returns (i: nat)
    requires k in ByKey(items)
    ensures i < |items| && KeyAt(items, i) == k && Counts(items, i) && ByKey(items)[k] == items[i]
  {
    var n := |items| - 1;
    if KeyAt(items, n) == k {
      i := n;
    } else {
      i := RowOfKey(items[..n], k);
      forall j | i < j < |items| ensures !SameRow(items, i, items, j) {
        assert j < n ==> !SameRow(items[..n], i, items[..n], j);
      }
    }
  }

  lemma {:induction false} Picked(keys: seq<Key>, rows: map<Key, Item>, wanted: set<Key>, x: Item)
    requires forall k :: k in keys ==> k in rows
    ensures x in Pick(keys, rows, wanted) <==> exists k :: k in keys && k in wanted && rows[k] == x
  {
    if |keys| > 0 {
      var n := |keys| - 1;
      Picked(keys[..n], rows, wanted, x);
      assert keys == keys[..n] + [keys[n]];
    }
  }

  /** The row is in the one list and no row like it in the other. */
  ghost predicate OnlyIn(x: Item, a: seq<Item>, b: seq<Item>) {
    exists i: nat :: i < |a| && a[i] == x && Counts(a, i) && forall j: nat :: j < |b| ==> !SameRow(a, i, b, j)
  }

  /** The row is in the new list, and the same one with other contents in the old. */
  ghost predicate ChangedTo(x: Item, was: seq<Item>, now: seq<Item>) {
    exists i: nat, j: nat :: i < |now| && j < |was| && SameRow(now, i, was, j)
                          && Counts(now, i) && Counts(was, j) && now[i] == x && was[j] != x
  }

  lemma {:induction false} OnlyInByKey(x: Item, a: seq<Item>, b: seq<Item>)
    ensures OnlyIn(x, a, b) <==> exists k :: k in ByKey(a) && k !in ByKey(b) && ByKey(a)[k] == x
  {
    if k :| k in ByKey(a) && k !in ByKey(b) && ByKey(a)[k] == x {
      var i := RowOfKey(a, k);
      forall j: nat | j < |b| ensures !SameRow(a, i, b, j) {
        KeyedRow(b, j);
      }
    }
    if i: nat :| i < |a| && a[i] == x && Counts(a, i) && forall j: nat :: j < |b| ==> !SameRow(a, i, b, j) {
      KeyedRow(a, i);
      if KeyAt(a, i) in ByKey(b) {
        var j := RowOfKey(b, KeyAt(a, i));
        assert !SameRow(a, i, b, j);
      }
    }
  }

  lemma {:induction false} ChangedByKey(x: Item, was: seq<Item>, now: seq<Item>)
    ensures ChangedTo(x, was, now)
       <==> exists k :: k in ByKey(now) && k in ByKey(was) && ByKey(now)[k] == x && ByKey(was)[k] != x
  {
    if k :| k in ByKey(now) && k in ByKey(was) && ByKey(now)[k] == x && ByKey(was)[k] != x {
      var i := RowOfKey(now, k);
      var j := RowOfKey(was, k);
      assert SameRow(now, i, was, j);
    }
    if i: nat, j: nat :| i < |now| && j < |was| && SameRow(now, i, was, j)
                         && Counts(now, i) && Counts(was, j) && now[i] == x && was[j] != x {
      KeyedRow(now, i);
      KeyedRow(was, j);
      assert KeyAt(now, i) == KeyAt(was, j);
    }
  }

  /**
   A row is sent as added exactly when no row like it was there, as updated when the same one was with other
   contents, and as removed when no row like it is there any more.
   */
  lemma {:induction false} DiffExactly(was: seq<Item>, now: seq<Item>, x: Item)
    ensures var d := ComputeDiff(was, now);
            && (x in d.added <==> OnlyIn(x, now, was))
            && (x in d.updated <==> ChangedTo(x, was, now))
            && (x in d.removed <==> OnlyIn(x, was, now))
  {
    var a, b := ByKey(was), ByKey(now);
    Picked(Keys(now), b, b.Keys - a.Keys, x);
    Picked(Keys(now), b, Changed(a, b), x);
    Picked(Keys(was), a, a.Keys - b.Keys, x);
    OnlyInByKey(x, now, was);
    OnlyInByKey(x, was, now);
    ChangedByKey(x, was, now);
  }
}
