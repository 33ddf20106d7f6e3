/** The InstallSnapshot handler, up to any point of its storage calls, refines the consensus core. */
module SimSnapshot {
  import opened JukeboxTypes
  import opened RaftLog
  import opened Storage
  import opened Node
  import opened Cluster
  import opened Consensus
  import opened ConsensusSteps
  import opened ConsensusLogs
  import opened ConsensusSafety
  import opened Relation
  import opened Compaction
  import opened SimAppend

  ghost predicate Installing(s: State, v: Id, n: NodeState, d: Disk, m: Msg) {
    && Ready(s, v, n, d) && m.SnapReq? && m.dst == v && MsgRel(s, m) && n.entries != []
    && m.term == n.currentTerm && n.role == Follower
  }

  /** A snapshot already covered is acknowledged: the leader's log holds all the follower committed. */
  lemma CoveredSim(s: State, v: Id, n: NodeState, d: Disk, m: Msg) returns (s': State)
    requires Installing(s, v, n, d, m) && m.lastIndex <= n.snapshotIndex
    ensures Reached(s, v, d, SnapshotAsFollower(n, m), 0, s', n)
  {
    var a := s.servers[v];
    assert GoodServer(s, v);
    assert GoodCommit(s, v);
    CommitInLeader(s, v, m.term);
    forall k: nat ensures KeptAt(s.reigns[m.term].log, a.log, a.log, k) { }
    s' := AdoptSim(s, v, n, n, a.log, m.lastIndex);
  }

  /** The suffix is kept exactly when the follower agrees with the leader through the snapshot. */
  lemma KeepsSuffixIff(s: State, v: Id, n: NodeState, d: Disk, m: Msg, c: nat)
    requires Installing(s, v, n, d, m) && m.lastIndex > n.snapshotIndex && Parted(s, v, c)
    ensures KeepsSuffix(n, m) <==> m.lastIndex <= c
  {
    var log := s.servers[v].log;
    var leader := s.reigns[m.term].log;
    TermTransparent(n.entries, n.snapshotIndex, log, m.lastIndex);
    if KeepsSuffix(n, m) {
      assert log[m.lastIndex - 1].term == leader[m.lastIndex - 1].term;
      assert Agree(log, leader, m.lastIndex);
    }
  }

  ghost function InstalledLog(s: State, v: Id, m: Msg, c: nat): Log
    requires m.SnapReq? && v in s.servers && m.term in s.reigns && m.lastIndex <= |s.reigns[m.term].log|
  {
    Taken(s.servers[v].log, s.reigns[m.term].log, m.lastIndex, m.lastIndex <= c)
  }

  lemma InstalledEntries(s: State, v: Id, n: NodeState, d: Disk, m: Msg, c: nat)
    requires Installing(s, v, n, d, m) && m.lastIndex > n.snapshotIndex && Parted(s, v, c)
    ensures EntriesRel(Installed(n, m).entries, m.lastIndex, InstalledLog(s, v, m, c))
    ensures m.lastTerm == TermAtOr0(InstalledLog(s, v, m, c), m.lastIndex)
  {
    KeepsSuffixIff(s, v, n, d, m, c);
    InstalledParts(n, m, s.servers[v].log, InstalledLog(s, v, m, c));
  }

  /** What is installed on the old log, or on one that ends at the snapshot. */
  lemma InstalledParts(n: NodeState, m: Msg, log: Log, log': Log)
    requires m.SnapReq? && n.entries != [] && EntriesRel(n.entries, n.snapshotIndex, log) && n.snapshotIndex < m.lastIndex <= |log'|
    requires Indexed(log') && m.lastTerm == TermAtOr0(log', m.lastIndex)
    requires if KeepsSuffix(n, m) then log' == log else |log'| == m.lastIndex
    ensures EntriesRel(Installed(n, m).entries, m.lastIndex, log')
  {
    var kept := if KeepsSuffix(n, m) then SliceFrom(n, m.lastIndex + 1) else [];
    if KeepsSuffix(n, m) { SliceTransparent(n, log, m.lastIndex + 1); }
    assert kept == log'[m.lastIndex..];
    CutEntries(log', m.lastIndex);
  }

  lemma InstallSim(s: State, v: Id, n: NodeState, d: Disk, m: Msg, c: nat) returns (s': State)
    requires Installing(s, v, n, d, m) && m.lastIndex > n.snapshotIndex && Parted(s, v, c)
    ensures Inv(s') && Evolves(s, s', v) && NodeRel(s', v, Installed(n, m))
    ensures s'.servers[v].log == InstalledLog(s, v, m, c) && s.servers[v].commit <= s'.servers[v].commit
    ensures Acked(s', v, m.term) >= m.lastIndex
  {
    InstalledEntries(s, v, n, d, m, c);
    var n' := Installed(n, m);
    TakenOk(s, v, c, m.lastIndex, n'.commitIndex);
    s' := AdoptSim(s, v, n, n', InstalledLog(s, v, m, c), m.lastIndex);
  }

  // ---- Storage ----

  /** Once the snapshot is saved, storage stands for the new log, cleaned up or not. */
  lemma InstallOnDisk(n: NodeState, d: Disk, m: Msg, log: Log, log': Log)
    requires m.SnapReq? && LogOnDisk(d.log, n.snapshotIndex, log) && n.snapshotIndex < m.lastIndex <= |log'|
    requires log' == log || (|log'| == m.lastIndex && forall i :: i in d.log ==> i <= n.snapshotIndex)
    ensures LogOnDisk(d.log, m.lastIndex, log') && LogOnDisk(DropUpTo(d.log, m.lastIndex), m.lastIndex, log')
  {
    if log' == log {
      CompactOnDisk(d.log, n.snapshotIndex, log, m.lastIndex);
    } else {
      forall i: nat ensures StoredAt(d.log, m.lastIndex, log', i) { assert StoredAt(d.log, n.snapshotIndex, log, i); }
      CompactOnDisk(d.log, m.lastIndex, log', m.lastIndex);
    }
  }

  /** The suffix is kept: save the snapshot, drop the prefix. */
  lemma KeepPoint(s: State, v: Id, n: NodeState, d: Disk, m: Msg, j: nat) returns (s': State, n': NodeState)
    requires Installing(s, v, n, d, m) && m.lastIndex > n.snapshotIndex && KeepsSuffix(n, m)
    requires 0 < j <= |SnapshotAsFollower(n, m).writes|
    ensures Reached(s, v, d, SnapshotAsFollower(n, m), j, s', n')
  {
    var c := PartingPoint(s, v);
    KeepsSuffixIff(s, v, n, d, m, c);
    s' := InstallSim(s, v, n, d, m, c);
    n' := Installed(n, m);
    KeepDisk(n, d, m, s.servers[v].log, j);
  }

  /** Storage after the first j calls when the suffix is kept. */
  lemma KeepDisk(n: NodeState, d: Disk, m: Msg, log: Log, j: nat)
    requires m.SnapReq? && DiskRel(n, d, log) && n.snapshotIndex < m.lastIndex <= |log| && KeepsSuffix(n, m)
    requires 0 < j <= |InstallWrites(n, m)|
    ensures DiskRel(Installed(n, m), Replay(d, InstallWrites(n, m)[..j]), log)
  {
    var ws := InstallWrites(n, m);
    InstallOnDisk(n, d, m, log, log);
    ReplayOne(d, ws[0]);
    ReplayTwo(d, ws[0], ws[1]);
    assert ws[..j] == if j == 1 then [ws[0]] else [ws[0], ws[1]];
  }

  lemma ReplayThree(d: Disk, a: Write, b: Write, c: Write)
    ensures Replay(d, [a, b, c]) == Do(Do(Do(d, a), b), c)
  {
    assert [a, b, c][1..] == [b, c];
    ReplayTwo(Do(d, a), b, c);
  }

  /** The suffix is dropped first; with nothing to drop that changes nothing. */
  lemma DropNothing(s: State, v: Id, n: NodeState, d: Disk, m: Msg)
    requires Installing(s, v, n, d, m) && m.lastIndex > n.snapshotIndex && !KeepsSuffix(n, m)
    requires LastIndex(n) == n.snapshotIndex
    ensures Reached(s, v, d, SnapshotAsFollower(n, m), 1, s, n)
  {
    var ws := SnapshotAsFollower(n, m).writes;
    EvolvesRefl(s, v);
    ReadyValid(s, v, n, d);
    CutOnDisk(d.log, n.snapshotIndex, s.servers[v].log, n.snapshotIndex);
    assert s.servers[v].log[..n.snapshotIndex] == s.servers[v].log;
    assert ws[..1] == [ws[0]];
    ReplayOne(d, ws[0]);
  }

  lemma DropPoint(s: State, v: Id, n: NodeState, d: Disk, m: Msg, j: nat) returns (s': State, n': NodeState)
    requires Installing(s, v, n, d, m) && m.lastIndex > n.snapshotIndex && !KeepsSuffix(n, m)
    requires 1 < j <= |SnapshotAsFollower(n, m).writes|
    ensures Reached(s, v, d, SnapshotAsFollower(n, m), j, s', n')
  {
    var c := PartingPoint(s, v);
    KeepsSuffixIff(s, v, n, d, m, c);
    s' := InstallSim(s, v, n, d, m, c);
    n' := Installed(n, m);
    DropDisk(s, v, n, d, m, s'.servers[v].log, j);
  }

  /** Storage after the first j calls when the suffix is dropped. */
  lemma DropDisk(s: State, v: Id, n: NodeState, d: Disk, m: Msg, log': Log, j: nat)
    requires Installing(s, v, n, d, m) && m.lastIndex > n.snapshotIndex && !KeepsSuffix(n, m) && |log'| == m.lastIndex
    requires 1 < j <= |InstallWrites(n, m)|
    ensures DiskRel(Installed(n, m), Replay(d, InstallWrites(n, m)[..j]), log')
  {
    var ws := InstallWrites(n, m);
    DropOnDisk(s, v, n, d, m, log');
    ReplayTwo(d, ws[0], ws[1]);
    ReplayThree(d, ws[0], ws[1], ws[2]);
    assert ws[..j] == if j == 2 then [ws[0], ws[1]] else [ws[0], ws[1], ws[2]];
  }

  lemma DropOnDisk(s: State, v: Id, n: NodeState, d: Disk, m: Msg, log': Log)
    requires Installing(s, v, n, d, m) && m.lastIndex > n.snapshotIndex && |log'| == m.lastIndex
    ensures var stored := DropFrom(d.log, n.snapshotIndex + 1);
      LogOnDisk(stored, m.lastIndex, log') && LogOnDisk(DropUpTo(stored, m.lastIndex), m.lastIndex, log')
  {
    var d1 := d.(log := DropFrom(d.log, n.snapshotIndex + 1));
    CutOnDisk(d.log, n.snapshotIndex, s.servers[v].log, n.snapshotIndex);
    InstallOnDisk(n, d1, m, s.servers[v].log[..n.snapshotIndex], log');
  }

  lemma FollowedSnapPoint(s: State, v: Id, n: NodeState, d: Disk, m: Msg, j: nat) returns (s': State, n': NodeState)
    requires Installing(s, v, n, d, m) && j <= |SnapshotAsFollower(n, m).writes|
    requires m.lastIndex > n.snapshotIndex && !KeepsSuffix(n, m) && j == 1 ==> LastIndex(n) == n.snapshotIndex
    ensures Reached(s, v, d, SnapshotAsFollower(n, m), j, s', n')
  {
    if m.lastIndex <= n.snapshotIndex {
      s' := CoveredSim(s, v, n, d, m);
      n' := n;
    } else if j == 0 {
      s', n' := s, n;
      PointZero(s, v, n, d, SnapshotAsFollower(n, m));
    } else if KeepsSuffix(n, m) {
      s', n' := KeepPoint(s, v, n, d, m, j);
    } else if j == 1 {
      s', n' := s, n;
      DropNothing(s, v, n, d, m);
    } else {
      s', n' := DropPoint(s, v, n, d, m, j);
    }
  }

  lemma FollowKeeps(n: NodeState, m: Msg)
    requires m.SnapReq? && n.entries != [] && m.term >= n.currentTerm
    ensures var n1 := Follow(n, m.term, m.src);
      && n1.entries == n.entries && n1.snapshotIndex == n.snapshotIndex && n1.role == Follower && n1.currentTerm == m.term
      && (KeepsSuffix(n1, m) <==> KeepsSuffix(n, m)) && LastIndex(n1) == LastIndex(n) && n1.cfg == n.cfg
  {
  }

  /** The state in which the snapshot is handled by a node that follows its sender. */
  lemma FollowInstalling(s: State, v: Id, n: NodeState, d: Disk, m: Msg) returns (s1: State)
    requires Ready(s, v, n, d) && m.SnapReq? && m.dst == v && MsgRel(s, m) && n.entries != [] && m.term >= n.currentTerm
    ensures Installing(s1, v, Follow(n, m.term, m.src), Replay(d, ObserveWrites(n, m.term)), m)
    ensures v in s.servers && Evolves(s, s1, v) && s1.servers[v].commit == s.servers[v].commit
    ensures s1.servers[v].log == s.servers[v].log && s1.reigns == s.reigns
  {
    FollowKeeps(n, m);
    s1 := ObserveFollow(s, v, n, d, m);
  }

  lemma SnapLive(s: State, v: Id, n: NodeState, d: Disk, m: Msg, j: nat) returns (s': State, n': NodeState)
    requires Ready(s, v, n, d) && m.SnapReq? && m.dst == v && MsgRel(s, m) && n.entries != [] && m.term >= n.currentTerm
    requires j <= |SnapshotAsFollower(Follow(n, m.term, m.src), m).writes|
    requires m.lastIndex > n.snapshotIndex && !KeepsSuffix(n, m) && j == 1 ==> LastIndex(n) == n.snapshotIndex
    ensures Reached(s, v, d, After(n, m.term, SnapshotAsFollower(Follow(n, m.term, m.src), m)), |ObserveWrites(n, m.term)| + j, s', n')
  {
    var s1 := FollowInstalling(s, v, n, d, m);
    FollowKeeps(n, m);
    s', n' := SnapAfter(s, s1, v, n, d, Follow(n, m.term, m.src), m, j);
  }

  lemma SnapAfter(s: State, s1: State, v: Id, n: NodeState, d: Disk, n1: NodeState, m: Msg, j: nat) returns (s': State, n': NodeState)
    requires m.SnapReq? && Installing(s1, v, n1, Replay(d, ObserveWrites(n, m.term)), m) && v in s.servers
    requires Evolves(s, s1, v) && s1.servers[v].commit == s.servers[v].commit && j <= |SnapshotAsFollower(n1, m).writes|
    requires m.lastIndex > n1.snapshotIndex && !KeepsSuffix(n1, m) && j == 1 ==> LastIndex(n1) == n1.snapshotIndex
    ensures Reached(s, v, d, After(n, m.term, SnapshotAsFollower(n1, m)), |ObserveWrites(n, m.term)| + j, s', n')
  {
    s', n' := FollowedSnapPoint(s1, v, n1, Replay(d, ObserveWrites(n, m.term)), m, j);
    PointAfter(s, s1, v, n, d, m.term, SnapshotAsFollower(n1, m), j, s', n');
  }

  // ---- The crash between dropping the suffix and saving the snapshot ----

  /** The storage calls up to the torn point. */
  lemma TornWrites(n: NodeState, m: Msg)
    requires m.SnapReq? && m.term >= n.currentTerm && m.lastIndex > n.snapshotIndex && !KeepsSuffix(n, m)
    ensures var k := |ObserveWrites(n, m.term)|;
      k + 1 < |OnSnapshot(n, m).writes| && OnSnapshot(n, m).writes[..k + 1] == ObserveWrites(n, m.term) + [TruncateSuffix(n.snapshotIndex + 1)]
  {
  }

  /** Storage and the reloaded node once the suffix is gone. */
  lemma TornReload(n: NodeState, d: Disk, log: Log)
    requires DiskRel(n, d, log) && EntriesRel(n.entries, n.snapshotIndex, log) && Indexed(log) && n.snapshotTerm == TermAt(log, n.snapshotIndex)
    ensures var d' := Do(d, TruncateSuffix(n.snapshotIndex + 1)); var r := Load(n.cfg, d');
      && r.entries == n.entries[..1] && DiskRel(r, d', log[..n.snapshotIndex])
      && EntriesRel(r.entries, n.snapshotIndex, log[..n.snapshotIndex])
  {
    var snap := n.snapshotIndex;
    var n' := n.(entries := n.entries[..1]);
    EntriesCut(n.entries, snap, log, snap);
    CutOnDisk(d.log, snap, log, snap);
    LoadTransparent(n.cfg, n', Do(d, TruncateSuffix(snap + 1)), log[..snap]);
  }

  lemma TornForget(s: State, v: Id, n: NodeState, d: Disk, m: Msg) returns (s': State)
    requires Installing(s, v, n, d, m) && m.lastIndex > n.snapshotIndex && !KeepsSuffix(n, m)
    ensures var d' := Do(d, TruncateSuffix(n.snapshotIndex + 1));
      && Inv(s') && Continues(s, s', v) && NodeRel(s', v, Load(n.cfg, d')) && DiskRel(Load(n.cfg, d'), d', s'.servers[v].log)
    ensures s'.servers[v].log == s.servers[v].log[..n.snapshotIndex] && s'.reigns == s.reigns
  {
    var snap := n.snapshotIndex;
    var c := PartingPoint(s, v);
    KeepsSuffixIff(s, v, n, d, m, c);
    assert GoodCommit(s, v) && GoodServer(s, v);
    s' := Next(s, Forget(v, snap));
    ForgetInv(s, v, snap);
    ForgetContinues(s, v, snap);
    TornReload(n, d, s.servers[v].log);
  }

  lemma TornSim(s: State, v: Id, n: NodeState, d: Disk, m: Msg) returns (s': State)
    requires Ready(s, v, n, d) && m.SnapReq? && m.dst == v && MsgRel(s, m) && n.entries != [] && m.term >= n.currentTerm
    requires m.lastIndex > n.snapshotIndex && !KeepsSuffix(n, m)
    ensures var d' := Replay(d, OnSnapshot(n, m).writes[..|ObserveWrites(n, m.term)| + 1]);
      && Inv(s') && Continues(s, s', v) && NodeRel(s', v, Load(n.cfg, d')) && DiskRel(Load(n.cfg, d'), d', s'.servers[v].log)
      && d'.snap == d.snap
    ensures s'.servers[v].log == s.servers[v].log[..n.snapshotIndex] && n.snapshotIndex <= |s.servers[v].log| && s'.reigns == s.reigns
  {
    var s1 := FollowInstalling(s, v, n, d, m);
    FollowKeeps(n, m);
    TornReplay(n, d, m);
    s' := TornAfter(s, s1, v, Follow(n, m.term, m.src), Replay(d, ObserveWrites(n, m.term)), m);
  }

  lemma TornAfter(s: State, s1: State, v: Id, n1: NodeState, d1: Disk, m: Msg) returns (s': State)
    requires Continues(s, s1, v) && Installing(s1, v, n1, d1, m) && m.lastIndex > n1.snapshotIndex && !KeepsSuffix(n1, m)
    ensures var d' := Do(d1, TruncateSuffix(n1.snapshotIndex + 1));
      && Inv(s') && Continues(s, s', v) && NodeRel(s', v, Load(n1.cfg, d')) && DiskRel(Load(n1.cfg, d'), d', s'.servers[v].log)
    ensures n1.snapshotIndex <= |s1.servers[v].log| && s'.servers[v].log == s1.servers[v].log[..n1.snapshotIndex] && s'.reigns == s1.reigns
  {
    s' := TornForget(s1, v, n1, d1, m);
    ContinuesTrans(s, s1, s', v);
  }

  lemma TornReplay(n: NodeState, d: Disk, m: Msg)
    requires m.SnapReq? && m.term >= n.currentTerm && m.lastIndex > n.snapshotIndex && !KeepsSuffix(n, m)
    ensures |ObserveWrites(n, m.term)| + 1 <= |OnSnapshot(n, m).writes|
    ensures Replay(d, OnSnapshot(n, m).writes[..|ObserveWrites(n, m.term)| + 1])
         == Do(Replay(d, ObserveWrites(n, m.term)), TruncateSuffix(n.snapshotIndex + 1))
    ensures Replay(d, ObserveWrites(n, m.term)).snap == d.snap
  {
    TornWrites(n, m);
    ReplaySplit(d, ObserveWrites(n, m.term), [TruncateSuffix(n.snapshotIndex + 1)]);
    ReplayOne(Replay(d, ObserveWrites(n, m.term)), TruncateSuffix(n.snapshotIndex + 1));
    if m.term > n.currentTerm { ReplayOne(d, SaveHard(HardState(m.term, ""))); }
  }

  /** InstallSnapshot, cut short after any number of its storage calls but the torn one, which `TornSim` covers. */
  lemma SnapPoint(s: State, v: Id, n: NodeState, d: Disk, m: Msg, j: nat) returns (s': State, n': NodeState)
    requires Ready(s, v, n, d) && m.SnapReq? && m.dst == v && MsgRel(s, m) && n.entries != []
    requires j <= |OnSnapshot(n, m).writes| && (j < |OnSnapshot(n, m).writes| ==> !TornInstall(n, Receive(m, true), j))
    ensures Reached(s, v, d, OnSnapshot(n, m), j, s', n')
  {
    if m.term < n.currentTerm || j < |ObserveWrites(n, m.term)| {
      s', n' := s, n;
      PointZero(s, v, n, d, OnSnapshot(n, m));
    } else {
      ReadyValid(s, v, n, d);
      s', n' := SnapLive(s, v, n, d, m, j - |ObserveWrites(n, m.term)|);
    }
  }
}
