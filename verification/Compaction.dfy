/**
 Compaction is transparent: the sentinel-and-offset log answers every question as the whole log
 would, the merge loop on it does what it does on the whole log, and storage
 rebuilds it.
 */
module Compaction {
  import opened JukeboxTypes
  import opened RaftLog
  import opened Storage
  import opened Node
  import opened Relation

  // ---- Reading ----

  lemma TermTransparent(entries: seq<Entry>, snap: nat, log: Log, i: nat)
    requires EntriesRel(entries, snap, log)
    ensures TermIn(entries, snap, i) == if snap <= i <= |log| then Some(TermAt(log, i)) else None
  {
    if snap < i <= |log| { assert entries[i - snap] == log[i - 1]; }
  }

  lemma LastTransparent(n: NodeState, log: Log)
    requires EntriesRel(n.entries, n.snapshotIndex, log) && Indexed(log)
    ensures n.entries != [] && LastIndex(n) == |log| && LastTermOf(n) == LastTerm(log)
  {
    var j := |n.entries| - 1;
    if j > 0 { assert n.entries[j] == log[n.snapshotIndex + j - 1]; }
  }

  lemma IndexTransparent(n: NodeState, log: Log)
    requires EntriesRel(n.entries, n.snapshotIndex, log) && Indexed(log)
    ensures forall j :: 0 <= j < |n.entries| ==> n.entries[j].index == n.snapshotIndex + j
  {
  }

  lemma SliceTransparent(n: NodeState, log: Log, from: nat)
    requires EntriesRel(n.entries, n.snapshotIndex, log) && n.snapshotIndex < from <= |log| + 1
    ensures SliceFrom(n, from) == log[from - 1..]
  {
    var off := from - n.snapshotIndex;
    if off < |n.entries| {
      assert forall j :: 0 <= j < |n.entries| - off ==> n.entries[off..][j] == log[from - 1..][j];
    }
  }

  // ---- The merge loop ----

  /** Equal terms at an index mean equal logs up to it. */
  ghost predicate Matching(a: Log, b: Log) {
    forall i :: 0 <= i < |a| && i < |b| && a[i].term == b[i].term ==> Agree(a, b, i + 1)
  }

  /** The first index, from k on, at which two logs part. */
  ghost function Common(a: Log, b: Log, k: nat): (c: nat)
    requires Agree(a, b, k)
    ensures k <= c && Agree(a, b, c) && !Agree(a, b, c + 1)
    decreases |a| - k
  {
    if Agree(a, b, k + 1) then Common(a, b, k + 1) else k
  }

  /** What accepting the leader's log up to m leaves: the old log if it has all that, else the leader's. */
  function Taken(log: Log, leader: Log, m: nat, agreed: bool): Log
    requires m <= |leader|
  {
    if agreed then log else leader[..m]
  }

  ghost predicate MergeOk(g: Merged, snap: nat, log: Log, leader: Log, c: nat, m: nat)
    requires m <= |leader|
  {
    && EntriesRel(g.entries, snap, Taken(log, leader, m, m <= c))
    && (m <= c ==> g.added == [] && g.cuts == [])
    && (c < m ==> g.added == leader[c..m] && g.cuts == if c < |log| then [TruncateSuffix(c + 1)] else [])
  }

  /** Appending one entry at the end of the whole log. */
  lemma EntriesAppend(entries: seq<Entry>, snap: nat, log: Log, e: Entry)
    requires EntriesRel(entries, snap, log)
    ensures EntriesRel(entries + [e], snap, log + [e])
  {
  }

  /** A whole log cut at a snapshot boundary. */
  lemma CutEntries(log: Log, k: nat)
    requires k <= |log|
    ensures EntriesRel([Sentinel(k, TermAt(log, k))] + log[k..], k, log)
  {
  }

  lemma EntriesCut(entries: seq<Entry>, snap: nat, log: Log, c: nat)
    requires EntriesRel(entries, snap, log) && snap <= c <= |log|
    ensures EntriesRel(entries[..c - snap + 1], snap, log[..c])
  {
  }

  /** Past the parting point the loop only appends. */
  lemma MergeTail(entries: seq<Entry>, snap: nat, leader: Log, q: nat, m: nat)
    requires WellFormed(leader) && snap <= q <= m <= |leader| && EntriesRel(entries, snap, leader[..q])
    ensures var g := Merge(entries, snap, leader[q..m]);
      EntriesRel(g.entries, snap, leader[..m]) && g.added == leader[q..m] && g.cuts == []
    decreases m - q
  {
    if q < m {
      var e := leader[q];
      assert leader[q..m][0] == e && leader[q..m][1..] == leader[q + 1..m];
      assert leader[..q] + [e] == leader[..q + 1];
      EntriesAppend(entries, snap, leader[..q], e);
      TermTransparent(entries, snap, leader[..q], q + 1);
      MergeTail(entries + [e], snap, leader, q + 1, m);
      assert [e] + leader[q + 1..m] == leader[q..m];
    }
  }

  /** At the parting point the loop cuts the follower's own suffix, if any, and takes the leader's. */
  lemma MergeParts(entries: seq<Entry>, snap: nat, log: Log, leader: Log, c: nat, m: nat)
    requires EntriesRel(entries, snap, log) && WellFormed(leader) && Matching(log, leader)
    requires Agree(log, leader, c) && !Agree(log, leader, c + 1)
    requires snap <= c < m <= |leader|
    ensures MergeOk(Merge(entries, snap, leader[c..m]), snap, log, leader, c, m)
  {
    var e, cut := leader[c], entries[..c - snap + 1];
    TermTransparent(entries, snap, log, c + 1);
    PartEntries(entries, snap, log, leader, c);
    MergeTail(cut + [e], snap, leader, c + 1, m);
    SliceHead(leader, c, m);
    assert c == |log| ==> cut == entries;
  }

  lemma SliceHead(log: Log, c: nat, m: nat)
    requires c < m <= |log|
    ensures log[c..m][0] == log[c] && log[c..m][1..] == log[c + 1..m] && [log[c]] + log[c + 1..m] == log[c..m]
  {
  }

  /** The log up to the parting point, with the leader's next entry. */
  lemma PartEntries(entries: seq<Entry>, snap: nat, log: Log, leader: Log, c: nat)
    requires EntriesRel(entries, snap, log) && Agree(log, leader, c) && snap <= c < |leader|
    ensures EntriesRel(entries[..c - snap + 1] + [leader[c]], snap, leader[..c + 1])
  {
    EntriesCut(entries, snap, log, c);
    EntriesAppend(entries[..c - snap + 1], snap, log[..c], leader[c]);
    assert log[..c] + [leader[c]] == leader[..c + 1];
  }

  /**
   The merge loop on the compacted log does what it does on the whole log, given that the
   follower matches the leader up to q and on its snapshotted prefix.
   */
  lemma MergeTransparent(entries: seq<Entry>, snap: nat, log: Log, leader: Log, c: nat, q: nat, m: nat)
    requires EntriesRel(entries, snap, log) && WellFormed(leader) && Matching(log, leader)
    requires Agree(log, leader, c) && !Agree(log, leader, c + 1)
    requires q <= m <= |leader| && q <= c && (snap <= c || m <= c)
    ensures MergeOk(Merge(entries, snap, leader[q..m]), snap, log, leader, c, m)
    decreases m - q
  {
    if q < m {
      assert leader[q..m][0] == leader[q] && leader[q..m][1..] == leader[q + 1..m];
      if q < c {
        TermTransparent(entries, snap, log, q + 1);
        MergeTransparent(entries, snap, log, leader, c, q + 1, m);
      } else {
        MergeParts(entries, snap, log, leader, c, m);
      }
    }
  }

  // ---- Storage ----

  lemma CutOnDisk(stored: map<nat, Entry>, snap: nat, log: Log, c: nat)
    requires LogOnDisk(stored, snap, log) && snap <= c <= |log|
    ensures LogOnDisk(DropFrom(stored, c + 1), snap, log[..c])
  {
    var stored', log' := DropFrom(stored, c + 1), log[..c];
    forall i: nat ensures StoredAt(stored', snap, log', i) { assert StoredAt(stored, snap, log, i); }
  }

  lemma AppendOnDisk(stored: map<nat, Entry>, snap: nat, log: Log, es: seq<Entry>)
    requires LogOnDisk(stored, snap, log) && Indexed(log + es)
    ensures LogOnDisk(PutAll(stored, es), snap, log + es)
  {
    forall j | 0 <= j < |es| ensures es[j].index == |log| + 1 + j { assert (log + es)[|log| + j] == es[j]; }
    forall i: nat ensures StoredAt(PutAll(stored, es), snap, log + es, i) {
      assert StoredAt(stored, snap, log, i);
      PutAllAt(stored, es, i);
    }
  }

  lemma CompactOnDisk(stored: map<nat, Entry>, snap: nat, log: Log, snap': nat)
    requires LogOnDisk(stored, snap, log) && snap <= snap' <= |log|
    ensures LogOnDisk(stored, snap', log) && LogOnDisk(DropUpTo(stored, snap'), snap', log)
  {
    forall i: nat ensures StoredAt(stored, snap', log, i) { assert StoredAt(stored, snap, log, i); }
    forall i: nat ensures StoredAt(DropUpTo(stored, snap'), snap', log, i) { assert StoredAt(stored, snap, log, i); }
  }

  lemma AboveSplit(a: seq<Entry>, e: Entry, index: nat)
    ensures Above(a + [e], index) == Above(a, index) + (if e.index > index then [e] else [])
  {
    assert (a + [e])[..|a + [e]| - 1] == a;
  }

  lemma {:induction false} AboveListing(stored: map<nat, Entry>, snap: nat, log: Log, b: nat)
    requires LogOnDisk(stored, snap, log) && b <= |log| + 1
    ensures Above(EntriesBelow(stored, b), snap) == if b <= snap then [] else log[snap..b - 1]
    decreases b
  {
    if b > 0 {
      AboveListing(stored, snap, log, b - 1);
      AboveNext(stored, snap, log, b - 1);
      if b - 1 > snap { SliceTail(log, snap, b - 2); }
    }
  }

  lemma SliceTail(log: Log, a: nat, b: nat)
    requires a <= b < |log|
    ensures log[a..b + 1] == log[a..b] + [log[b]]
  {
  }

  /** One more index: below the boundary what lingers is skipped, above it the log's entry follows. */
  lemma {:induction false} AboveNext(stored: map<nat, Entry>, snap: nat, log: Log, i: nat)
    requires LogOnDisk(stored, snap, log) && i <= |log|
    ensures Above(EntriesBelow(stored, i + 1), snap) == Above(EntriesBelow(stored, i), snap) + (if i > snap then [log[i - 1]] else [])
  {
    assert StoredAt(stored, snap, log, i);
    if i in stored { AboveSplit(EntriesBelow(stored, i), stored[i], snap); }
    else { assert EntriesBelow(stored, i + 1) == EntriesBelow(stored, i); }
  }

  /** Start-up rebuilds the log that storage mirrors, whatever lingers below the snapshot. */
  lemma LoadTransparent(cfg: Config, n: NodeState, d: Disk, log: Log)
    requires DiskRel(n, d, log) && EntriesRel(n.entries, n.snapshotIndex, log) && n.snapshotTerm == TermAt(log, n.snapshotIndex)
    ensures Load(cfg, d).entries == n.entries
  {
    var snap := n.snapshotIndex;
    forall i | i in d.log ensures i < |log| + 1 { assert StoredAt(d.log, snap, log, i); }
    ListingIs(d.log, |log| + 1);
    AboveListing(d.log, snap, log, |log| + 1);
    assert n.entries == [Sentinel(snap, n.snapshotTerm)] + log[snap..];
  }
}
