/**
 Storage keeps no more than it must (internal/raft/snapshot.go:27-48, 124-150): at a node that has not crashed it holds
 exactly the entries the node holds.
 */
module StorageTrim {
  import opened JukeboxTypes
  import opened RaftLog
  import opened Storage
  import opened Node
  import opened Cluster
  import opened Relation
  import opened Mirror
  import opened FreeRuns

  ghost predicate KeysAbove(log: map<nat, Entry>, k: nat) {
    forall i: nat :: i in log ==> i > k
  }

  /** Nothing at or below the snapshot lingers in storage. */
  ghost predicate Trimmed(n: NodeState, d: Disk) {
    KeysAbove(d.log, n.snapshotIndex)
  }

  ghost predicate AllAbove(es: seq<Entry>, k: nat) {
    forall j :: 0 <= j < |es| ==> es[j].index > k
  }

  ghost predicate WriteAbove(w: Write, k: nat) {
    w.Append? ==> AllAbove(w.entries, k)
  }

  ghost predicate WritesAbove(ws: seq<Write>, k: nat) {
    forall i {:trigger ws[i]} :: 0 <= i < |ws| ==> WriteAbove(ws[i], k)
  }

  lemma {:induction false} PutAllAbove(log: map<nat, Entry>, es: seq<Entry>, k: nat)
    requires KeysAbove(log, k) && AllAbove(es, k)
    ensures KeysAbove(PutAll(log, es), k)
    decreases |es|
  {
    if es != [] { PutAllAbove(log[es[0].index := es[0]], es[1..], k); }
  }

  lemma {:induction false} ReplayAbove(d: Disk, ws: seq<Write>, k: nat)
    requires KeysAbove(d.log, k) && WritesAbove(ws, k)
    ensures KeysAbove(Replay(d, ws).log, k)
    decreases |ws|
  {
    if ws != [] {
      assert WriteAbove(ws[0], k);
      if ws[0].Append? { PutAllAbove(d.log, ws[0].entries, k); }
      ReplayAbove(Do(d, ws[0]), ws[1..], k);
    }
  }

  /** What the merge appends lies above the snapshot; what it cuts appends nothing. */
  lemma {:induction false} MergeAbove(entries: seq<Entry>, snap: nat, es: seq<Entry>)
    requires entries != []
    ensures AllAbove(Merge(entries, snap, es).added, snap) && WritesAbove(Merge(entries, snap, es).cuts, snap)
    decreases |es|, 1
  {
    if es != [] {
      var e := es[0];
      var t := TermIn(entries, snap, e.index);
      if e.index <= snap || t == Some(e.term) { MergeAbove(entries, snap, es[1..]); }
      else if t.None? { MergeAbove(entries + [e], snap, es[1..]); }
      else { CutAbove(entries, snap, es); }
    }
  }

  lemma {:induction false} CutAbove(entries: seq<Entry>, snap: nat, es: seq<Entry>)
    requires entries != [] && es != [] && es[0].index > snap
    requires TermIn(entries, snap, es[0].index).Some? && TermIn(entries, snap, es[0].index).value != es[0].term
    ensures AllAbove(Merge(entries, snap, es).added, snap) && WritesAbove(Merge(entries, snap, es).cuts, snap)
    decreases |es|, 0
  {
    var e := es[0];
    var g := Merge(entries[..e.index - snap] + [e], snap, es[1..]);
    MergeAbove(entries[..e.index - snap] + [e], snap, es[1..]);
    assert WriteAbove(TruncateSuffix(e.index), snap);
    assert Merge(entries, snap, es).added == [e] + g.added && Merge(entries, snap, es).cuts == [TruncateSuffix(e.index)] + g.cuts;
  }

  ghost predicate OutAbove(n: NodeState, o: Out) {
    o.node.snapshotIndex == n.snapshotIndex && WritesAbove(o.writes, n.snapshotIndex)
  }

  lemma AcceptAbove(n: NodeState, m: Msg)
    requires m.AppendReq? && n.entries != []
    ensures OutAbove(n, AcceptEntries(n, m))
  {
    var g := Merge(n.entries, n.snapshotIndex, m.entries);
    MergeAbove(n.entries, n.snapshotIndex, m.entries);
    forall i | 0 <= i < |AcceptWrites(g)| ensures WriteAbove(AcceptWrites(g)[i], n.snapshotIndex) {
      if i < |g.cuts| { assert AcceptWrites(g)[i] == g.cuts[i]; } else { assert AcceptWrites(g)[i] == Append(g.added); }
    }
  }

  lemma AppendAbove(n: NodeState, m: Msg)
    requires m.AppendReq? && n.entries != []
    ensures OutAbove(n, OnAppend(n, m))
  {
    if m.term >= n.currentTerm {
      var g := Follow(n, m.term, m.src);
      if !PrevMissing(g, m) && !PrevConflicts(g, m) { AcceptAbove(g, m); }
      AfterAbove(n, m.term, AppendAsFollower(g, m));
    }
  }

  lemma AfterAbove(n: NodeState, term: nat, o: Out)
    requires OutAbove(n, o)
    ensures OutAbove(n, After(n, term, o))
  {
    var ws := ObserveWrites(n, term);
    forall i | 0 <= i < |ws + o.writes| ensures WriteAbove((ws + o.writes)[i], n.snapshotIndex) {
      if i >= |ws| { assert (ws + o.writes)[i] == o.writes[i - |ws|]; }
    }
  }

  lemma RepliesAbove(n: NodeState, m: Msg, calm: bool)
    requires Contiguous(n) && !m.AppendReq? && (m.SnapReq? ==> m.term < n.currentTerm || m.lastIndex <= n.snapshotIndex)
    ensures OutAbove(n, OnMessage(n, m, calm))
  {
  }

  /** The section takes or makes a snapshot. */
  predicate Snapshots(n: NodeState, call: Call)
    requires CanCall(n, call)
  {
    Handle(n, call).node.snapshotIndex != n.snapshotIndex
  }

  lemma CallAbove(n: NodeState, call: Call)
    requires CanCall(n, call) && !Snapshots(n, call)
    ensures OutAbove(n, Handle(n, call))
  {
    match call {
      case Receive(m, calm) => if m.AppendReq? { AppendAbove(n, m); } else { RepliesAbove(n, m, calm); }
      case _ =>
    }
  }

  /** A section that takes or makes a snapshot ends by dropping the log up to it. */
  lemma SnapshotDropsLast(n: NodeState, call: Call)
    requires CanCall(n, call) && Snapshots(n, call)
    ensures var o := Handle(n, call); o.writes != [] && o.writes[|o.writes| - 1] == TruncatePrefix(o.node.snapshotIndex)
  {
    match call {
      case Receive(m, calm) =>
        if m.SnapReq? { InstallDropsLast(n, m); }
        else if m.AppendReq? { AppendAbove(n, m); }
        else { RepliesAbove(n, m, calm); }
      case ApplyCommitted => CompactDropsLast(n);
      case _ =>
    }
  }

  lemma InstallDropsLast(n: NodeState, m: Msg)
    requires m.SnapReq? && OnSnapshot(n, m).node.snapshotIndex != n.snapshotIndex
    ensures var o := OnSnapshot(n, m); o.writes != [] && o.writes[|o.writes| - 1] == TruncatePrefix(o.node.snapshotIndex)
  {
  }

  lemma CompactDropsLast(n: NodeState)
    requires Valid(n) && ApplyReady(n).node.snapshotIndex != n.snapshotIndex
    ensures var o := ApplyReady(n); o.writes != [] && o.writes[|o.writes| - 1] == TruncatePrefix(o.node.snapshotIndex)
  {
  }

  /** A completed section leaves storage trimmed if it was, and a completed snapshot in any case. */
  lemma CallTrims(n: NodeState, d: Disk, call: Call)
    requires CanCall(n, call) && (Trimmed(n, d) || Snapshots(n, call))
    ensures var o := Handle(n, call); Trimmed(o.node, Replay(d, o.writes))
  {
    var o := Handle(n, call);
    if Snapshots(n, call) {
      SnapshotDropsLast(n, call);
      var k := |o.writes| - 1;
      assert o.writes == o.writes[..k] + [o.writes[k]];
      ReplaySplit(d, o.writes[..k], [o.writes[k]]);
      assert Replay(d, o.writes) == Do(Replay(d, o.writes[..k]), o.writes[k]);
    } else {
      CallAbove(n, call);
      ReplayAbove(d, o.writes, n.snapshotIndex);
    }
  }

  /** v has completed every section it began, at least since it last took or made a snapshot. */
  ghost predicate CleanAt(run: seq<ClusterState>, steps: seq<Step>, h: nat, v: Id) {
    h < |run| && h <= |steps| && v in run[h].nodes && v in run[h].disks && Trimmed(run[h].nodes[v], run[h].disks[v])
  }

  lemma {:induction false} StaysTrimmed(run: seq<ClusterState>, steps: seq<Step>, h: nat, i: nat, v: Id)
    requires IsFreeRun(run, steps) && h <= i < |run| && CleanAt(run, steps, h, v)
    requires forall j: nat :: h <= j < i && steps[j].v == v ==> steps[j].Act?
    ensures CleanAt(run, steps, i, v)
    decreases i - h
  {
    if h < i {
      StaysTrimmed(run, steps, h, i - 1, v);
      assert FreeStep(run, steps, i - 1);
      if steps[i - 1].v == v { CallTrims(run[i - 1].nodes[v], run[i - 1].disks[v], steps[i - 1].call); }
    }
  }

  function EntryAt(n: NodeState, k: nat): Option<Entry> {
    if n.snapshotIndex < k < n.snapshotIndex + |n.entries| then Some(n.entries[k - n.snapshotIndex]) else None
  }

  function StoredEntry(d: Disk, k: nat): Option<Entry> {
    if k in d.log then Some(d.log[k]) else None
  }

  lemma TrimmedExact(n: NodeState, d: Disk, k: nat)
    requires Mirrors(n, d) && Trimmed(n, d)
    ensures StoredEntry(d, k) == EntryAt(n, k)
  {
    var log :| MirrorsBy(n, d, log);
    assert StoredAt(d.log, n.snapshotIndex, log, k);
  }

  /** State h is the first, or v has just completed a snapshot. */
  ghost predicate StartsClean(run: seq<ClusterState>, steps: seq<Step>, h: nat, v: Id)
    requires IsFreeRun(run, steps) && h < |run|
  {
    h == 0 || (FreeStep(run, steps, h - 1) && steps[h - 1].Act? && steps[h - 1].v == v && Snapshots(run[h - 1].nodes[v], steps[h - 1].call))
  }

  lemma CleanFrom(run: seq<ClusterState>, steps: seq<Step>, h: nat, v: Id)
    requires IsFreeRun(run, steps) && h < |run| && v in run[h].nodes && StartsClean(run, steps, h, v)
    ensures CleanAt(run, steps, h, v)
  {
    FreeRunInv(run, steps, h);
    if h > 0 { CallTrims(run[h - 1].nodes[v], run[h - 1].disks[v], steps[h - 1].call); }
  }

  /** Until a node first crashes, and again from each snapshot it completes, its storage holds exactly the entries it has in memory. */
  lemma StorageExact(run: seq<ClusterState>, steps: seq<Step>, h: nat, i: nat, v: Id, k: nat)
    requires IsFreeRun(run, steps) && h <= i < |run| && v in run[i].nodes && StartsClean(run, steps, h, v)
    requires forall j: nat :: h <= j < i && steps[j].v == v ==> steps[j].Act?
    ensures v in run[i].disks && StoredEntry(run[i].disks[v], k) == EntryAt(run[i].nodes[v], k)
  {
    MessagesStay(run, steps, h, i);
    CleanFrom(run, steps, h, v);
    StaysTrimmed(run, steps, h, i, v);
    FreeRunInv(run, steps, i);
    assert Placed(run[i], v);
    TrimmedExact(run[i].nodes[v], run[i].disks[v], k);
  }
}
