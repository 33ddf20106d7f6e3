/** The in-memory storage (internal/store/mem.go): a map, filtered and sorted on demand. */
module MemStorage {
  import opened JukeboxTypes
  import opened RaftLog
  import opened Storage

  predicate Ascending(ks: seq<nat>) {
    forall i, j :: 0 <= i < j < |ks| ==> ks[i] < ks[j]
  }

  function Fetch(log: map<nat, Entry>, ks: seq<nat>): seq<Entry>
    requires forall k :: k in ks ==> k in log
  {
    if ks == [] then [] else Fetch(log, ks[..|ks| - 1]) + [log[ks[|ks| - 1]]]
  }

  ghost predicate KeysBelow(log: map<nat, Entry>, ks: seq<nat>, b: nat) {
    Ascending(ks) && forall k :: k in ks <==> k in log && k < b
  }

  /** The greatest key below the bound comes last. */
  lemma LastKey(log: map<nat, Entry>, ks: seq<nat>, b: nat)
    requires KeysBelow(log, ks, b + 1) && b in log
    ensures ks != [] && ks[|ks| - 1] == b && KeysBelow(log, ks[..|ks| - 1], b)
  {
    assert b in ks;
    var i :| 0 <= i < |ks| && ks[i] == b;
    var n := |ks| - 1;
    assert ks[n] in ks;
    var front := ks[..n];
    forall k ensures k in front <==> k in log && k < b {
      if k in log && k < b { assert k in ks; var j :| 0 <= j < |ks| && ks[j] == k; assert front[j] == k; }
      if k in front { assert k in ks; }
    }
  }

  /** The stored keys below a bound, in order, fetch the listing up to it. */
  lemma {:induction false} AscendingIsListing(log: map<nat, Entry>, ks: seq<nat>, b: nat)
    requires KeysBelow(log, ks, b)
    ensures Fetch(log, ks) == EntriesBelow(log, b)
    decreases b
  {
    assert |ks| > 0 ==> ks[0] in ks && ks[0] < b;
    if b > 0 && b - 1 in log {
      LastKey(log, ks, b - 1);
      AscendingIsListing(log, ks[..|ks| - 1], b - 1);
    } else if b > 0 {
      AscendingIsListing(log, ks, b - 1);
    }
  }

  /** Where a key belongs in an ascending sequence. */
  method InsertKey(ks: seq<nat>, k: nat) returns (r: seq<nat>)
    requires Ascending(ks) && k !in ks
    ensures Ascending(r) && forall x :: x in r <==> x in ks || x == k
  {
    var i := |ks|;
    while i > 0 && ks[i - 1] > k
      invariant 0 <= i <= |ks|
      invariant forall j :: i <= j < |ks| ==> ks[j] > k
    {
      i := i - 1;
    }
    r := ks[..i] + [k] + ks[i..];
    Inserted(ks, i, k);
  }

  /** A key put between the smaller and the greater ones. */
  lemma Inserted(ks: seq<nat>, i: nat, k: nat)
    requires Ascending(ks) && k !in ks && i <= |ks| && (i > 0 ==> ks[i - 1] <= k)
    requires forall j :: i <= j < |ks| ==> ks[j] > k
    ensures var r := ks[..i] + [k] + ks[i..]; Ascending(r) && forall x :: x in r <==> x in ks || x == k
  {
    var low, high := ks[..i], ks[i..];
    assert i > 0 ==> ks[i - 1] in ks;
    forall j | 0 <= j < |low| ensures low[j] < k { }
    JoinAscending(low, k, high);
    assert ks == low + high;
  }

  lemma JoinAscending(low: seq<nat>, k: nat, high: seq<nat>)
    requires Ascending(low) && Ascending(high) && (forall j :: 0 <= j < |low| ==> low[j] < k) && (forall j :: 0 <= j < |high| ==> k < high[j])
    ensures Ascending(low + [k] + high)
  {
    var r := low + [k] + high;
    forall a, b | 0 <= a < b < |r| ensures r[a] < r[b] {
      assert r[a] <= k || a > |low|;
      assert r[b] >= k || b < |low|;
    }
  }

  lemma {:induction false} ReplayLast(d: Disk, ws: seq<Write>, w: Write)
    ensures Replay(d, ws + [w]) == Do(Replay(d, ws), w)
    decreases |ws|
  {
    if ws == [] {
      assert [w][1..] == [];
    } else {
      assert (ws + [w])[1..] == ws[1..] + [w];
      ReplayLast(Do(d, ws[0]), ws[1..], w);
    }
  }

  /** A store nothing was written to. */
  ghost predicate Unwritten(d: Disk) {
    d == EMPTY_DISK
  }

  class MemStore {
    var hs: HardState
    var log: map<nat, Entry>
    var snap: Snapshot
    /** Every storage call made, in order. */
    ghost var calls: seq<Write>

    /** The content is what the calls made of an empty store. */
    ghost predicate Valid()
      reads this
    {
      forall d {:trigger Unwritten(d)} :: Unwritten(d) ==> Content() == Replay(d, calls)
    }

    function Content(): Disk
      reads this
    {
      Disk(hs, log, snap)
    }

    constructor ()
      ensures Valid() && Content() == EMPTY_DISK && calls == []
    {
      hs, log, snap := HardState(0, ""), map[], Snapshot(0, 0, None);
      calls := [];
    }

    method SaveHardState(hard: HardState)
      requires Valid()
      modifies this
      ensures Valid() && calls == old(calls) + [SaveHard(hard)]
    {
      assert Unwritten(EMPTY_DISK);
      ReplayLast(EMPTY_DISK, calls, SaveHard(hard));
      calls := calls + [SaveHard(hard)];
      hs := hard;
    }

    method LoadHardState() returns (hard: HardState)
      ensures hard == Content().hard
    {
      hard := hs;
    }

    method Append(entries: seq<Entry>)
      requires Valid()
      modifies this
      ensures Valid() && calls == old(calls) + [Storage.Append(entries)]
    {
      assert Unwritten(EMPTY_DISK);
      ReplayLast(EMPTY_DISK, calls, Storage.Append(entries));
      calls := calls + [Storage.Append(entries)];
      var i := 0;
      while i < |entries|
        invariant 0 <= i <= |entries|
        invariant hs == old(hs) && snap == old(snap) && calls == old(calls) + [Storage.Append(entries)]
        invariant PutAll(log, entries[i..]) == PutAll(old(log), entries)
      {
        assert entries[i..][1..] == entries[i + 1..];
        log := log[entries[i].index := entries[i]];
        i := i + 1;
      }
    }

    method TruncateSuffix(idx: nat)
      requires Valid()
      modifies this
      ensures Valid() && calls == old(calls) + [Storage.TruncateSuffix(idx)]
    {
      assert Unwritten(EMPTY_DISK);
      ReplayLast(EMPTY_DISK, calls, Storage.TruncateSuffix(idx));
      calls := calls + [Storage.TruncateSuffix(idx)];
      var keys := log.Keys;
      while keys != {}
        invariant keys <= old(log).Keys && hs == old(hs) && snap == old(snap)
        invariant calls == old(calls) + [Storage.TruncateSuffix(idx)]
        invariant forall k :: k in log <==> k in old(log) && (k in keys || k < idx)
        invariant forall k :: k in log ==> log[k] == old(log)[k]
        decreases |keys|
      {
        var k :| k in keys;
        if k >= idx {
          log := log - {k};
        }
        keys := keys - {k};
      }
    }

    method TruncatePrefix(idx: nat)
      requires Valid()
      modifies this
      ensures Valid() && calls == old(calls) + [Storage.TruncatePrefix(idx)]
    {
      assert Unwritten(EMPTY_DISK);
      ReplayLast(EMPTY_DISK, calls, Storage.TruncatePrefix(idx));
      calls := calls + [Storage.TruncatePrefix(idx)];
      var keys := log.Keys;
      while keys != {}
        invariant keys <= old(log).Keys && hs == old(hs) && snap == old(snap)
        invariant calls == old(calls) + [Storage.TruncatePrefix(idx)]
        invariant forall k :: k in log <==> k in old(log) && (k in keys || k > idx)
        invariant forall k :: k in log ==> log[k] == old(log)[k]
        decreases |keys|
      {
        var k :| k in keys;
        if k <= idx {
          log := log - {k};
        }
        keys := keys - {k};
      }
    }

    /** All entries in ascending index order. */
    method AllEntries() returns (out: seq<Entry>)
      ensures out == Listing(Content().log)
    {
      var idxs: seq<nat> := [];
      var keys := log.Keys;
      while keys != {}
        invariant keys <= log.Keys && Ascending(idxs)
        invariant forall k :: k in idxs <==> k in log && k !in keys
        decreases |keys|
      {
        var k :| k in keys;
        idxs := InsertKey(idxs, k);
        keys := keys - {k};
      }
      out := [];
      var i := 0;
      while i < |idxs|
        invariant 0 <= i <= |idxs|
        invariant out == Fetch(log, idxs[..i])
      {
        assert idxs[..i + 1][..i] == idxs[..i];
        out := out + [log[idxs[i]]];
        i := i + 1;
      }
      assert idxs[..i] == idxs;
      HasBound(log);
      ghost var b: nat :| Bounds(log, b);
      assert KeysBelow(log, idxs, b);
      AscendingIsListing(log, idxs, b);
      ListingIs(log, b);
    }

    method SaveSnapshot(s: Snapshot)
      requires Valid()
      modifies this
      ensures Valid() && calls == old(calls) + [SaveSnap(s)]
    {
      assert Unwritten(EMPTY_DISK);
      ReplayLast(EMPTY_DISK, calls, SaveSnap(s));
      calls := calls + [SaveSnap(s)];
      snap := s;
    }

    method LoadSnapshot() returns (s: Snapshot)
      ensures s == Content().snap
    {
      s := snap;
    }
  }
}
