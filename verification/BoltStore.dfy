/** The key encoding of the on-disk storage (internal/store/bolt.go): 8 bytes, most significant first. */
module KeyOrder {
  type Byte = x: nat | x < 256

  type Key = seq<Byte>

  const LIMIT: nat := 0x1_0000_0000_0000_0000

  function Power(n: nat): nat {
    if n == 0 then 1 else 256 * Power(n - 1)
  }

  /** The n low bytes of v, most significant first. */
  function BigEndian(v: nat, n: nat): (b: Key)
    ensures |b| == n
  {
    if n == 0 then [] else BigEndian(v / 256, n - 1) + [v % 256]
  }

  function FromBytes(b: Key): nat {
    if b == [] then 0 else FromBytes(b[..|b| - 1]) * 256 + b[|b| - 1]
  }

  function U64(v: nat): Key {
    BigEndian(v, 8)
  }

  /** Byte strings compared from the front. */
  predicate Less(a: Key, b: Key) {
    b != [] && (a == [] || a[0] < b[0] || (a[0] == b[0] && Less(a[1..], b[1..])))
  }

  lemma {:induction false} BytesDecode(v: nat, n: nat)
    requires v < Power(n)
    ensures FromBytes(BigEndian(v, n)) == v
    decreases n
  {
    if n > 0 {
      BytesDecode(v / 256, n - 1);
      assert BigEndian(v, n)[..n - 1] == BigEndian(v / 256, n - 1);
    }
  }

  lemma {:induction false} BytesEncode(b: Key)
    ensures FromBytes(b) < Power(|b|) && BigEndian(FromBytes(b), |b|) == b
    decreases |b|
  {
    if b != [] {
      BytesEncode(b[..|b| - 1]);
      assert b == b[..|b| - 1] + [b[|b| - 1]];
    }
  }

  /** Equal-length strings that end in x and y compare by what comes before, then by x and y. */
  lemma {:induction false} LessLast(a: Key, b: Key, x: Byte, y: Byte)
    requires |a| == |b|
    ensures Less(a + [x], b + [y]) <==> Less(a, b) || (a == b && x < y)
    decreases |a|
  {
    if a == [] {
      assert a + [x] == [x] && b + [y] == [y];
    } else {
      assert (a + [x])[1..] == a[1..] + [x] && (b + [y])[1..] == b[1..] + [y];
      LessLast(a[1..], b[1..], x, y);
      assert a == [a[0]] + a[1..] && b == [b[0]] + b[1..];
    }
  }

  /** The byte order of keys of one length is the order of the numbers they encode. */
  lemma {:induction false} LessIff(a: Key, b: Key)
    requires |a| == |b|
    ensures Less(a, b) <==> FromBytes(a) < FromBytes(b)
    ensures a == b <==> FromBytes(a) == FromBytes(b)
    decreases |a|
  {
    if a != [] {
      var n := |a| - 1;
      assert a == a[..n] + [a[n]] && b == b[..n] + [b[n]];
      LessIff(a[..n], b[..n]);
      LessLast(a[..n], b[..n], a[n], b[n]);
    }
  }

  lemma LimitIsPower()
    ensures Power(8) == LIMIT
  {
  }

  /** 8-byte keys order exactly as the numbers do, and decode to them. */
  lemma KeysOrdered(v: nat, w: nat)
    requires v < LIMIT && w < LIMIT
    ensures Less(U64(v), U64(w)) <==> v < w
    ensures U64(v) == U64(w) <==> v == w
    ensures FromBytes(U64(v)) == v
  {
    LimitIsPower();
    BytesDecode(v, 8);
    BytesDecode(w, 8);
    LessIff(U64(v), U64(w));
  }
}

/** The on-disk storage: buckets of byte keys in order, walked by a cursor. */
module BoltStorage {
  import opened JukeboxTypes
  import opened RaftLog
  import opened Storage
  import opened KeyOrder
  import opened MemStorage

  datatype Item = Item(key: Key, value: Entry)

  // ---- A bucket, as the database library presents it ----

  ghost predicate Sorted(items: seq<Item>) {
    && (forall i :: 0 <= i < |items| ==> |items[i].key| == 8)
    && (forall i, j :: 0 <= i < j < |items| ==> Less(items[i].key, items[j].key))
  }

  /** The position of the first key not below the given one. */
  function Seek(items: seq<Item>, key: Key): (i: nat)
    ensures i <= |items| && (i < |items| ==> !Less(items[i].key, key))
    ensures forall j :: 0 <= j < i ==> Less(items[j].key, key)
  {
    if items == [] || !Less(items[0].key, key) then 0 else 1 + Seek(items[1..], key)
  }

  function Put(items: seq<Item>, key: Key, value: Entry): seq<Item> {
    var i := Seek(items, key);
    items[..i] + [Item(key, value)] + (if i < |items| && items[i].key == key then items[i + 1..] else items[i..])
  }

  function Delete(items: seq<Item>, key: Key): seq<Item> {
    var i := Seek(items, key);
    if i < |items| && items[i].key == key then items[..i] + items[i + 1..] else items
  }

  // ---- A bucket as a log ----

  function LogOf(items: seq<Item>): map<nat, Entry> {
    if items == [] then map[]
    else LogOf(items[..|items| - 1])[FromBytes(items[|items| - 1].key) := items[|items| - 1].value]
  }

  lemma NumbersAscend(items: seq<Item>, i: nat, j: nat)
    requires Sorted(items) && i < j < |items|
    ensures FromBytes(items[i].key) < FromBytes(items[j].key)
  {
    assert Less(items[i].key, items[j].key);
    LessIff(items[i].key, items[j].key);
  }

  ghost predicate HeldAt(items: seq<Item>, k: nat, i: nat) {
    i < |items| && FromBytes(items[i].key) == k
  }

  /** The log holds a number exactly when some key encodes it, and then that key's value. */
  lemma {:induction false} LogOfMeans(items: seq<Item>, k: nat)
    requires Sorted(items)
    ensures k in LogOf(items) <==> exists i: nat :: HeldAt(items, k, i)
    ensures forall i: nat :: HeldAt(items, k, i) ==> k in LogOf(items) && LogOf(items)[k] == items[i].value
    decreases |items|
  {
    if items != [] {
      var n := |items| - 1;
      var front := items[..n];
      LogOfMeans(front, k);
      forall i: nat ensures HeldAt(front, k, i) <==> i < n && HeldAt(items, k, i) { }
      forall i: nat | HeldAt(items, k, i) ensures k in LogOf(items) && LogOf(items)[k] == items[i].value {
        if i < n { assert HeldAt(front, k, i); NumbersAscend(items, i, n); }
      }
      if k in LogOf(items) {
        if k == FromBytes(items[n].key) { assert HeldAt(items, k, n); }
        else { var i: nat :| HeldAt(front, k, i); assert HeldAt(items, k, i); }
      }
    }
  }

  /** A key below the one sought sits before its position, and only such keys do. */
  lemma SeekSplits(items: seq<Item>, idx: nat, i: nat)
    requires Sorted(items) && idx < LIMIT && i < |items|
    ensures i < Seek(items, U64(idx)) <==> FromBytes(items[i].key) < idx
  {
    var key := U64(idx);
    var p := Seek(items, key);
    KeysOrdered(idx, idx);
    LessIff(items[i].key, key);
    if p <= i && p < |items| {
      LessIff(items[p].key, key);
      if p < i { NumbersAscend(items, p, i); }
    }
  }

  lemma SliceSorted(items: seq<Item>, a: nat, b: nat)
    requires Sorted(items) && a <= b <= |items|
    ensures Sorted(items[a..b])
  {
  }

  /** A run of neighbouring items holds what its positions hold. */
  lemma SliceLog(items: seq<Item>, a: nat, b: nat, k: nat)
    requires Sorted(items) && a <= b <= |items|
    ensures k in LogOf(items[a..b]) <==> exists i: nat :: a <= i < b && HeldAt(items, k, i)
    ensures k in LogOf(items[a..b]) ==> k in LogOf(items) && LogOf(items[a..b])[k] == LogOf(items)[k]
  {
    var part := items[a..b];
    SliceSorted(items, a, b);
    LogOfMeans(items, k);
    LogOfMeans(part, k);
    if k in LogOf(part) {
      var j: nat :| HeldAt(part, k, j);
      assert HeldAt(items, k, a + j);
    }
    if i: nat :| a <= i < b && HeldAt(items, k, i) { assert HeldAt(part, k, i - a); }
  }

  ghost predicate SplitAt(items: seq<Item>, p: nat, idx: nat) {
    p <= |items| && forall i :: 0 <= i < |items| ==> (i < p <==> FromBytes(items[i].key) < idx)
  }

  /** Cutting a bucket at a number's position is filtering its log by that number. */
  lemma CutAt(items: seq<Item>, p: nat, idx: nat)
    requires Sorted(items) && SplitAt(items, p, idx)
    ensures LogOf(items[0..p]) == DropFrom(LogOf(items), idx)
    ensures idx > 0 ==> LogOf(items[p..|items|]) == DropUpTo(LogOf(items), idx - 1)
  {
    forall k: nat ensures k in LogOf(items[0..p]) <==> k in LogOf(items) && k < idx { LowPart(items, p, idx, k); }
    forall k: nat | k in LogOf(items[0..p]) ensures LogOf(items[0..p])[k] == LogOf(items)[k] { SliceLog(items, 0, p, k); }
    forall k: nat ensures k in LogOf(items[p..|items|]) <==> k in LogOf(items) && k >= idx { HighPart(items, p, idx, k); }
    forall k: nat | k in LogOf(items[p..|items|]) ensures LogOf(items[p..|items|])[k] == LogOf(items)[k] { SliceLog(items, p, |items|, k); }
  }

  lemma SuffixSplits(items: seq<Item>, idx: nat)
    requires Sorted(items) && idx < LIMIT
    ensures SplitAt(items, Seek(items, U64(idx)), idx)
  {
    forall i: nat | i < |items| ensures i < Seek(items, U64(idx)) <==> FromBytes(items[i].key) < idx { SeekSplits(items, idx, i); }
  }

  lemma PrefixSplits(items: seq<Item>, c: nat, idx: nat)
    requires Sorted(items) && c <= |items| && (c < |items| ==> FromBytes(items[c].key) > idx)
    requires forall i :: 0 <= i < c ==> FromBytes(items[i].key) <= idx
    ensures SplitAt(items, c, idx + 1)
  {
    forall i | c < i < |items| ensures FromBytes(items[i].key) > idx { NumbersAscend(items, c, i); }
  }

  lemma PrefixCut(items: seq<Item>, c: nat, idx: nat)
    requires Sorted(items) && SplitAt(items, c, idx + 1)
    ensures LogOf(items[..0] + items[0 + c..]) == DropUpTo(LogOf(items), idx)
  {
    CutAt(items, c, idx + 1);
    assert items[..0] + items[0 + c..] == items[c..|items|];
  }

  lemma LowPart(items: seq<Item>, p: nat, idx: nat, k: nat)
    requires Sorted(items) && SplitAt(items, p, idx)
    ensures k in LogOf(items[0..p]) <==> k in LogOf(items) && k < idx
  {
    SliceLog(items, 0, p, k);
    LogOfMeans(items, k);
  }

  lemma HighPart(items: seq<Item>, p: nat, idx: nat, k: nat)
    requires Sorted(items) && SplitAt(items, p, idx)
    ensures k in LogOf(items[p..|items|]) <==> k in LogOf(items) && k >= idx
  {
    SliceLog(items, p, |items|, k);
    LogOfMeans(items, k);
  }

  // ---- Putting and deleting ----

  /** What stands from a number's position on, the number's own item aside, is above it. */
  lemma SortedAround(items: seq<Item>, idx: nat)
    requires Sorted(items) && idx < LIMIT
    ensures var p := Seek(items, U64(idx));
      && (forall i :: 0 <= i < p ==> FromBytes(items[i].key) < idx)
      && (p < |items| && items[p].key == U64(idx) ==> FromBytes(items[p].key) == idx)
      && (forall i :: p <= i < |items| && !(i == p && items[p].key == U64(idx)) ==> idx < FromBytes(items[i].key))
  {
    var p := Seek(items, U64(idx));
    KeysOrdered(idx, idx);
    forall i: nat | i < |items| ensures i < p <==> FromBytes(items[i].key) < idx { SeekSplits(items, idx, i); }
    if p < |items| { LessIff(items[p].key, U64(idx)); }
    forall i | p < i < |items| ensures idx < FromBytes(items[i].key) { NumbersAscend(items, p, i); }
  }

  lemma PutSorted(items: seq<Item>, idx: nat, e: Entry)
    requires Sorted(items) && idx < LIMIT
    ensures Sorted(Put(items, U64(idx), e))
  {
    var items' := Put(items, U64(idx), e);
    SortedAround(items, idx);
    KeysOrdered(idx, idx);
    forall i | 0 <= i < |items'| ensures |items'[i].key| == 8 { }
    forall i, j | 0 <= i < j < |items'| ensures Less(items'[i].key, items'[j].key) {
      LessIff(items'[i].key, items'[j].key);
    }
  }

  /** A put is a map update at the number. */
  lemma PutLog(items: seq<Item>, idx: nat, e: Entry)
    requires Sorted(items) && idx < LIMIT
    ensures LogOf(Put(items, U64(idx), e)) == LogOf(items)[idx := e]
  {
    var items' := Put(items, U64(idx), e);
    var log, log' := LogOf(items), LogOf(items');
    PutSorted(items, idx, e);
    forall k: nat ensures k in log' <==> k in log || k == idx { PutAtKey(items, idx, e, k); }
    forall k: nat | k in log' ensures log'[k] == log[idx := e][k] { PutAtKey(items, idx, e, k); }
  }

  lemma PutAtKey(items: seq<Item>, idx: nat, e: Entry, k: nat)
    requires Sorted(items) && idx < LIMIT && Sorted(Put(items, U64(idx), e))
    ensures var log := LogOf(items); var log' := LogOf(Put(items, U64(idx), e));
      && (k in log' <==> k in log || k == idx) && (k in log' ==> log'[k] == log[idx := e][k])
  {
    if k == idx {
      var p := Seek(items, U64(idx));
      KeysOrdered(idx, idx);
      assert Put(items, U64(idx), e)[p] == Item(U64(idx), e);
      NumberHeld(Put(items, U64(idx), e), p);
    } else {
      PutElsewhere(items, idx, e, k);
    }
  }

  /** Where an item stands once another is put before or over it. */
  ghost function Shifted(items: seq<Item>, idx: nat, i: nat): nat {
    var p := Seek(items, U64(idx));
    if i < p || (p < |items| && items[p].key == U64(idx)) then i else i + 1
  }

  lemma PutKeeps(items: seq<Item>, idx: nat, e: Entry, k: nat, i: nat)
    requires Sorted(items) && idx < LIMIT && k != idx && HeldAt(items, k, i)
    ensures HeldAt(Put(items, U64(idx), e), k, Shifted(items, idx, i))
    ensures Put(items, U64(idx), e)[Shifted(items, idx, i)] == items[i]
  {
    KeysOrdered(idx, idx);
  }

  lemma PutAddsNone(items: seq<Item>, idx: nat, e: Entry, k: nat, j: nat) returns (i: nat)
    requires Sorted(items) && idx < LIMIT && k != idx && HeldAt(Put(items, U64(idx), e), k, j)
    ensures HeldAt(items, k, i)
  {
    KeysOrdered(idx, idx);
    var p := Seek(items, U64(idx));
    i := if j < p || (p < |items| && items[p].key == U64(idx)) then j else j - 1;
    assert Put(items, U64(idx), e)[j] == items[i];
  }

  lemma PutElsewhere(items: seq<Item>, idx: nat, e: Entry, k: nat)
    requires Sorted(items) && idx < LIMIT && Sorted(Put(items, U64(idx), e)) && k != idx
    ensures var log := LogOf(items); var log' := LogOf(Put(items, U64(idx), e));
      && (k in log' <==> k in log) && (k in log' ==> log'[k] == log[k])
  {
    var items' := Put(items, U64(idx), e);
    LogOfMeans(items, k);
    LogOfMeans(items', k);
    if k in LogOf(items') {
      var j: nat :| HeldAt(items', k, j);
      var i := PutAddsNone(items, idx, e, k, j);
      PutKeeps(items, idx, e, k, i);
    }
    if k in LogOf(items) {
      var i: nat :| HeldAt(items, k, i);
      PutKeeps(items, idx, e, k, i);
    }
  }

  /** Deleting the key of a position removes that position. */
  lemma DeleteAt(items: seq<Item>, p: nat)
    requires Sorted(items) && p < |items|
    ensures Delete(items, items[p].key) == items[..p] + items[p + 1..]
  {
    var key := items[p].key;
    var q := Seek(items, key);
    LessIff(key, key);
    assert q <= p;
  }

  // ---- Listing ----

  function Values(items: seq<Item>): seq<Entry> {
    seq(|items|, i requires 0 <= i < |items| => items[i].value)
  }

  function Numbers(items: seq<Item>): seq<nat> {
    seq(|items|, i requires 0 <= i < |items| => FromBytes(items[i].key))
  }

  lemma NumberHeld(items: seq<Item>, i: nat)
    requires Sorted(items) && i < |items|
    ensures var k := FromBytes(items[i].key); k in LogOf(items) && LogOf(items)[k] == items[i].value
  {
    var k := FromBytes(items[i].key);
    LogOfMeans(items, k);
    assert HeldAt(items, k, i);
  }

  lemma {:induction false} NumbersFetch(items: seq<Item>, ks: seq<nat>, n: nat)
    requires Sorted(items) && n <= |items| && ks == Numbers(items)[..n]
    ensures forall k :: k in ks ==> k in LogOf(items)
    ensures Fetch(LogOf(items), ks) == Values(items)[..n]
    decreases n
  {
    forall k | k in ks ensures k in LogOf(items) {
      var i: nat :| i < n && ks[i] == k;
      NumberHeld(items, i);
    }
    if n > 0 {
      NumbersFetch(items, ks[..n - 1], n - 1);
      NumberHeld(items, n - 1);
    }
  }

  /** Walking the bucket in key order lists the log in index order. */
  lemma ValuesAreListing(items: seq<Item>)
    requires Sorted(items)
    ensures Values(items) == Listing(LogOf(items))
  {
    var log, ks := LogOf(items), Numbers(items);
    HasBound(log);
    var b: nat :| Bounds(log, b);
    forall i, j | 0 <= i < j < |ks| ensures ks[i] < ks[j] { NumbersAscend(items, i, j); }
    forall k: nat ensures k in ks <==> k in log && k < b {
      LogOfMeans(items, k);
      if k in ks { var i: nat :| i < |ks| && ks[i] == k; assert HeldAt(items, k, i); }
      if k in log { var i: nat :| HeldAt(items, k, i); assert ks[i] == k; }
    }
    assert KeysBelow(log, ks, b);
    NumbersFetch(items, ks, |items|);
    AscendingIsListing(log, ks, b);
    ListingIs(log, b);
  }

  class BoltStore {
    // The meta and snap buckets, by their fixed keys; a key never written is absent.
    var metaTerm: Option<Key>
    var metaVotedFor: Option<string>
    var snapIndex: Option<Key>
    var snapTerm: Option<Key>
    var snapData: Option<JukeState>
    // The log bucket.
    var items: seq<Item>
    /** Every storage call made, in order. */
    ghost var calls: seq<Write>

    /** Keys are in order, and the content is what the calls made of an empty store. */
    ghost predicate Valid()
      reads this
    {
      Sorted(items) && forall d {:trigger Unwritten(d)} :: Unwritten(d) ==> Content() == Replay(d, calls)
    }

    function Number(b: Option<Key>): nat {
      if b.Some? then FromBytes(b.value) else 0
    }

    function Content(): Disk
      reads this
    {
      Disk(HardState(Number(metaTerm), if metaVotedFor.Some? then metaVotedFor.value else ""), LogOf(items),
           Snapshot(Number(snapIndex), Number(snapTerm), snapData))
    }

    constructor ()
      ensures Valid() && Content() == EMPTY_DISK && calls == []
    {
      calls := [];
      metaTerm, metaVotedFor, snapIndex, snapTerm, snapData, items := None, None, None, None, None, [];
    }

    method SaveHardState(hard: HardState)
      requires Valid() && hard.term < LIMIT
      modifies this
      ensures Valid() && Content() == Do(old(Content()), SaveHard(hard)) && calls == old(calls) + [SaveHard(hard)]
    {
      assert Unwritten(EMPTY_DISK);
      ReplayLast(EMPTY_DISK, calls, SaveHard(hard));
      metaTerm := Some(U64(hard.term));
      metaVotedFor := Some(hard.votedFor);
      KeysOrdered(hard.term, hard.term);
      calls := calls + [SaveHard(hard)];
    }

    method LoadHardState() returns (hard: HardState)
      ensures hard == Content().hard
    {
      hard := HardState(0, "");
      if metaTerm.Some? {
        hard := hard.(term := FromBytes(metaTerm.value));
      }
      if metaVotedFor.Some? {
        hard := hard.(votedFor := metaVotedFor.value);
      }
    }

    method Append(entries: seq<Entry>)
      requires Valid() && forall i :: 0 <= i < |entries| ==> entries[i].index < LIMIT
      modifies this`items, this`calls
      ensures Valid() && Content() == Do(old(Content()), Storage.Append(entries)) && calls == old(calls) + [Storage.Append(entries)]
    {
      assert Unwritten(EMPTY_DISK);
      ReplayLast(EMPTY_DISK, calls, Storage.Append(entries));
      var i := 0;
      while i < |entries|
        invariant 0 <= i <= |entries| && Sorted(items) && calls == old(calls)
        invariant PutAll(LogOf(items), entries[i..]) == PutAll(old(LogOf(items)), entries)
      {
        var e := entries[i];
        PutLog(items, e.index, e);
        PutSorted(items, e.index, e);
        assert entries[i..][1..] == entries[i + 1..];
        items := Put(items, U64(e.index), e);
        i := i + 1;
      }
      calls := calls + [Storage.Append(entries)];
    }

    /** Deletes the collected keys, which are those at positions p up to p + |keys|. */
    method DeleteAll(keys: seq<Key>, p: nat)
      requires Sorted(items) && p + |keys| <= |items| && forall i :: 0 <= i < |keys| ==> keys[i] == items[p + i].key
      modifies this`items
      ensures Sorted(items) && items == old(items[..p] + items[p + |keys|..])
    {
      ghost var was := items;
      var i := 0;
      while i < |keys|
        invariant 0 <= i <= |keys| && Sorted(items)
        invariant items == was[..p] + was[p + i..]
      {
        assert items[p].key == keys[i];
        DeleteAt(items, p);
        assert items[..p] + items[p + 1..] == was[..p] + was[p + i + 1..];
        SortedGap(was, p, p + i + 1);
        items := Delete(items, keys[i]);
        i := i + 1;
      }
    }

    /** Seek to the index, collect every key from there on, then delete them. */
    method DropSuffix(idx: nat)
      requires Sorted(items) && idx < LIMIT
      modifies this`items
      ensures Sorted(items) && LogOf(items) == DropFrom(old(LogOf(items)), idx)
    {
      var p := Seek(items, U64(idx));
      var toDelete := CollectFrom(p);
      SuffixSplits(items, idx);
      CutAt(items, p, idx);
      ghost var was := items;
      DeleteAll(toDelete, p);
      assert items == was[0..p];
    }

    /** Every key from a position on. */
    method CollectFrom(p: nat) returns (keys: seq<Key>)
      requires p <= |items|
      ensures |keys| == |items| - p && forall i :: 0 <= i < |keys| ==> keys[i] == items[p + i].key
    {
      keys := [];
      var c := p;
      while c < |items|
        invariant p <= c <= |items| && |keys| == c - p
        invariant forall i :: 0 <= i < |keys| ==> keys[i] == items[p + i].key
      {
        keys := keys + [items[c].key];
        c := c + 1;
      }
    }

    method TruncateSuffix(idx: nat)
      requires Valid() && idx < LIMIT
      modifies this`items, this`calls
      ensures Valid() && Content() == Do(old(Content()), Storage.TruncateSuffix(idx)) && calls == old(calls) + [Storage.TruncateSuffix(idx)]
    {
      assert Unwritten(EMPTY_DISK);
      ReplayLast(EMPTY_DISK, calls, Storage.TruncateSuffix(idx));
      DropSuffix(idx);
      calls := calls + [Storage.TruncateSuffix(idx)];
    }

    /** From the first key, every key up to the index. */
    method CollectUpTo(idx: nat) returns (keys: seq<Key>)
      requires Sorted(items)
      ensures |keys| <= |items| && SplitAt(items, |keys|, idx + 1)
      ensures forall i :: 0 <= i < |keys| ==> keys[i] == items[i].key
    {
      keys := [];
      var c := 0;
      while c < |items| && FromBytes(items[c].key) <= idx
        invariant 0 <= c <= |items| && |keys| == c
        invariant forall i :: 0 <= i < c ==> keys[i] == items[i].key && FromBytes(items[i].key) <= idx
      {
        keys := keys + [items[c].key];
        c := c + 1;
      }
      PrefixSplits(items, c, idx);
    }

    method DropPrefix(idx: nat)
      requires Sorted(items)
      modifies this`items
      ensures Sorted(items) && LogOf(items) == DropUpTo(old(LogOf(items)), idx)
    {
      var toDelete := CollectUpTo(idx);
      PrefixCut(items, |toDelete|, idx);
      DeleteAll(toDelete, 0);
    }

    method TruncatePrefix(idx: nat)
      requires Valid() && idx < LIMIT
      modifies this`items, this`calls
      ensures Valid() && Content() == Do(old(Content()), Storage.TruncatePrefix(idx)) && calls == old(calls) + [Storage.TruncatePrefix(idx)]
    {
      assert Unwritten(EMPTY_DISK);
      ReplayLast(EMPTY_DISK, calls, Storage.TruncatePrefix(idx));
      DropPrefix(idx);
      calls := calls + [Storage.TruncatePrefix(idx)];
    }

    method AllEntries() returns (out: seq<Entry>)
      requires Valid()
      ensures out == Listing(Content().log)
    {
      out := [];
      var c := 0;
      while c < |items|
        invariant 0 <= c <= |items| && out == Values(items)[..c]
      {
        out := out + [items[c].value];
        c := c + 1;
      }
      ValuesAreListing(items);
    }

    method SaveSnapshot(s: Snapshot)
      requires Valid() && s.lastIndex < LIMIT && s.lastTerm < LIMIT
      modifies this
      ensures Valid() && Content() == Do(old(Content()), SaveSnap(s)) && calls == old(calls) + [SaveSnap(s)]
    {
      assert Unwritten(EMPTY_DISK);
      ReplayLast(EMPTY_DISK, calls, SaveSnap(s));
      snapIndex := Some(U64(s.lastIndex));
      snapTerm := Some(U64(s.lastTerm));
      snapData := s.data;
      KeysOrdered(s.lastIndex, s.lastTerm);
      KeysOrdered(s.lastTerm, s.lastIndex);
      calls := calls + [SaveSnap(s)];
    }

    method LoadSnapshot() returns (s: Snapshot)
      ensures s == Content().snap
    {
      s := Snapshot(0, 0, None);
      if snapIndex.Some? {
        s := s.(lastIndex := FromBytes(snapIndex.value));
      }
      if snapTerm.Some? {
        s := s.(lastTerm := FromBytes(snapTerm.value));
      }
      s := s.(data := snapData);
    }
  }

  lemma SortedGap(items: seq<Item>, a: nat, b: nat)
    requires Sorted(items) && a <= b <= |items|
    ensures Sorted(items[..a] + items[b..])
  {
  }

  /**
   Both stores refine one abstract log: the same sequence of calls leaves them with the same content, and
   so with the same listing, hard state and snapshot.
   */
  lemma StoresAgree(mem: MemStore, bolt: BoltStore)
    requires mem.Valid() && bolt.Valid() && mem.calls == bolt.calls
    ensures mem.Content() == bolt.Content() && Listing(mem.Content().log) == Listing(bolt.Content().log)
  {
    assert Unwritten(EMPTY_DISK);
  }
}
