/**
 InstallSnapshot deletes a conflicting suffix from storage before it saves the snapshot
 (internal/raft/snapshot.go:124-141): exactly what a crash between the two loses, and a run in which a
 follower loses an entry it has acknowledged.
 */
module TornSnapshot {
  import opened JukeboxTypes
  import opened JukeboxSpec
  import opened RaftLog
  import opened Storage
  import opened Node
  import opened Cluster
  import opened Consensus
  import opened Relation
  import opened Compaction
  import opened SimAppend
  import SimSnapshot
  import opened Theorems
  import opened Scenario

  // ---- Exactly what the crash loses ----

  /** Of the log only the snapshot boundary is left. */
  lemma TornNode(n: NodeState, d: Disk, log: Log, m: Msg)
    requires DiskRel(n, d, log) && EntriesRel(n.entries, n.snapshotIndex, log) && Indexed(log) && n.snapshotTerm == TermAt(log, n.snapshotIndex)
    requires m.SnapReq? && m.term >= n.currentTerm && m.lastIndex > n.snapshotIndex && !KeepsSuffix(n, m)
    ensures |ObserveWrites(n, m.term)| + 1 <= |OnSnapshot(n, m).writes|
    ensures var r := Load(n.cfg, Replay(d, OnSnapshot(n, m).writes[..|ObserveWrites(n, m.term)| + 1]));
      |r.entries| == 1 && r.snapshotIndex == n.snapshotIndex && r.currentTerm == m.term
  {
    var n1, d1 := Observe(n, m.term), Replay(d, ObserveWrites(n, m.term));
    if m.term > n.currentTerm { ReplayOne(d, SaveHard(HardState(m.term, ""))); }
    SimSnapshot.TornReload(n1, d1, log);
    SimSnapshot.TornWrites(n, m);
    ReplaySplit(d, ObserveWrites(n, m.term), [TruncateSuffix(n.snapshotIndex + 1)]);
    ReplayOne(d1, TruncateSuffix(n.snapshotIndex + 1));
  }

  lemma TornInState(c: ClusterState, s: State, step: Step)
    requires Matched(c, s) && CanStep(c, step) && Torn(c, step)
    ensures var n := c.nodes[step.v]; var r := Take(c, step).nodes[step.v];
      |r.entries| == 1 && r.snapshotIndex == n.snapshotIndex && r.currentTerm == step.call.m.term && Take(c, step).applied == c.applied
  {
    var v := step.v;
    NodeOf(c, s, v);
    assert DiskAt(c.nodes, c.disks, s, v);
    TornNode(c.nodes[v], c.disks[v], s.servers[v].log, step.call.m);
  }

  /**
   An entry a follower covers, acknowledged or not, is uncovered by a crash between InstallSnapshot's suffix deletion and
   its snapshot save if and only if it lies above the follower's snapshot.
   */
  lemma TornLosesIff(run: seq<ClusterState>, steps: seq<Step>, i: nat, e: Entry)
    requires IsRun(run, steps) && i < |steps| && RunStep(run, steps, i) && Torn(run[i], steps[i])
    requires Covers(run[i].nodes[steps[i].v], run[i].applied, e)
    ensures steps[i].v in run[i + 1].nodes
    ensures !Covers(run[i + 1].nodes[steps[i].v], run[i + 1].applied, e) <==> e.index > run[i].nodes[steps[i].v].snapshotIndex
  {
    var s := StateOf(run, steps, i);
    TornInState(run[i], s, steps[i]);
  }

  /**
   For an acknowledged entry: a follower that has honoured its acknowledgements so far fails to after such a crash,
   in the same term, exactly for the entries above its snapshot.
   */
  lemma AcknowledgedLostIff(run: seq<ClusterState>, steps: seq<Step>, i: nat, q: Msg, m: Msg, k: nat)
    requires IsRun(run, steps) && i < |steps| && RunStep(run, steps, i) && Torn(run[i], steps[i])
    requires NoTornCrash(run[..i + 1], steps[..i]) && q in run[i].msgs && m in run[i].msgs
    requires q.AppendReq? && m.AppendReply? && m.success && m.src == q.dst == steps[i].v && m.reqTerm == q.term == steps[i].call.m.term
    requires m.prevIndex == q.prevIndex && m.count == |q.entries| && k < |q.entries| && run[i].nodes[m.src].currentTerm == q.term
    ensures m.src in run[i + 1].nodes && run[i + 1].nodes[m.src].currentTerm == q.term
    ensures !Covers(run[i + 1].nodes[m.src], run[i + 1].applied, q.entries[k]) <==> q.entries[k].index > run[i].nodes[m.src].snapshotIndex
  {
    PrefixIsRun(run, steps, i);
    AcksHonoured(run[..i + 1], steps[..i], i, q, m, k);
    TornLosesIff(run, steps, i, q.entries[k]);
    var s := StateOf(run, steps, i);
    TornInState(run[i], s, steps[i]);
  }

  lemma PrefixIsRun(run: seq<ClusterState>, steps: seq<Step>, i: nat)
    requires IsRun(run, steps) && i <= |steps|
    ensures IsRun(run[..i + 1], steps[..i])
  {
    var r, t := run[..i + 1], steps[..i];
    forall h: nat | h < |t| ensures RunStep(r, t, h) { assert RunStep(run, steps, h); }
  }

  // ---- A run in which an acknowledged entry is lost ----

  const FIRST: Entry := Entry(1, 1, NOOP)

  function Ship(s: Setup): Msg { AppendReq(s.k.a, s.k.b, 0, 1, 0, 0, [FIRST], 0) }
  function Ack(s: Setup): Msg { AppendReply(s.k.b, s.k.a, 0, 1, 0, 1, 1, true, 0, 0) }

  function OneB(s: Setup): NodeState { Voted(s).(leaderId := s.k.a, entries := [Sentinel(0, 0), FIRST]) }

  function OneA(s: Setup): NodeState {
    Leading(s).(commitIndex := 1, matchIndex := map[s.k.b := 1, s.k.c := 0], nextIndex := map[s.k.b := 2, s.k.c := 1])
  }

  lemma ReplicatesFirst(s: Setup)
    requires Distinct(s.k)
    ensures CanCall(Leading(s), Replicate(s.k.b, 0))
    ensures Handle(Leading(s), Replicate(s.k.b, 0)) == Out(Leading(s), [], {Ship(s)}, [], {})
  {
    assert Leading(s).entries[1..] == [FIRST];
    assert s.k.b == Leading(s).cfg.peers[0];
  }

  lemma AcceptsFirst(s: Setup)
    requires Distinct(s.k)
    ensures CanCall(Voted(s), Receive(Ship(s), true)) && Allowed(Voted(s), Receive(Ship(s), true))
    ensures Handle(Voted(s), Receive(Ship(s), true)).node == OneB(s) && Ack(s) in Handle(Voted(s), Receive(Ship(s), true)).sends
  {
    assert [FIRST][1..] == [];
    assert Merge([Sentinel(0, 0)], 0, [FIRST]) == Merged([Sentinel(0, 0), FIRST], [FIRST], []);
  }

  lemma CountsFirst(s: Setup)
    requires Distinct(s.k)
    ensures CanCall(Leading(s), Receive(Ack(s), true)) && Handle(Leading(s), Receive(Ack(s), true)).node == OneA(s)
  {
    var n := Leading(s).(matchIndex := map[s.k.b := 1, s.k.c := 0], nextIndex := map[s.k.b := 2, s.k.c := 1]);
    assert Leading(s).matchIndex[s.k.b := 1] == n.matchIndex && Leading(s).nextIndex[s.k.b := 2] == n.nextIndex;
    CountTwo(s.k.b, s.k.c, n.matchIndex, 1);
    assert Countable(n, 1);
  }

  lemma FirstAcknowledged(s: Setup) returns (run: seq<ClusterState>)
    requires Distinct(s.k)
    ensures IsGuardedRun(run) && run != [] && At(s.k, Last(run), OneA(s), OneB(s), BlankC(s))
    ensures Ship(s) in Last(run).msgs && Ack(s) in Last(run).msgs
  {
    run := FirstElection(s);
    ReplicatesFirst(s);
    run := MoveA(s.k, run, Leading(s), Voted(s), BlankC(s), Replicate(s.k.b, 0));
    AcceptsFirst(s);
    run := MoveB(s.k, run, Leading(s), Voted(s), BlankC(s), Receive(Ship(s), true));
    CountsFirst(s);
    run := MoveA(s.k, run, Leading(s), OneB(s), BlankC(s), Receive(Ack(s), true));
  }

  // ---- A commits a second entry with C and compacts both away ----

  const SECOND: Entry := Entry(1, 2, NOOP)

  function TwoA(s: Setup): NodeState { OneA(s).(entries := [Sentinel(0, 0), FIRST, SECOND]) }
  function ShipC(s: Setup): Msg { AppendReq(s.k.a, s.k.c, 0, 1, 0, 0, [FIRST, SECOND], 1) }
  function AckC(s: Setup): Msg { AppendReply(s.k.c, s.k.a, 0, 1, 0, 2, 1, true, 0, 0) }

  function TwoC(s: Setup): NodeState {
    BlankC(s).(currentTerm := 1, leaderId := s.k.a, entries := [Sentinel(0, 0), FIRST, SECOND], commitIndex := 1)
  }

  function BothA(s: Setup): NodeState {
    TwoA(s).(commitIndex := 2, matchIndex := map[s.k.b := 1, s.k.c := 2], nextIndex := map[s.k.b := 2, s.k.c := 3])
  }

  function CompactedA(s: Setup): NodeState {
    BothA(s).(lastApplied := 2, entries := [Sentinel(2, 1)], snapshotIndex := 2, snapshotTerm := 1, snapshotData := Some(INITIAL))
  }

  lemma ProposesSecond(s: Setup)
    requires Distinct(s.k)
    ensures CanCall(OneA(s), Submit(NOOP, false)) && Handle(OneA(s), Submit(NOOP, false)).node == TwoA(s)
  {
    var n := TwoA(s);
    assert OneA(s).entries + [SECOND] == n.entries;
    CountTwo(s.k.b, s.k.c, n.matchIndex, 2);
    assert CommitSearch(n, 1) == 1;
  }

  lemma ReplicatesBoth(s: Setup)
    requires Distinct(s.k)
    ensures CanCall(TwoA(s), Replicate(s.k.c, 0))
    ensures Handle(TwoA(s), Replicate(s.k.c, 0)) == Out(TwoA(s), [], {ShipC(s)}, [], {})
  {
    assert TwoA(s).entries[1..] == [FIRST, SECOND];
    assert s.k.c == TwoA(s).cfg.peers[1];
  }

  lemma AcceptsBoth(s: Setup)
    requires Distinct(s.k)
    ensures CanCall(BlankC(s), Receive(ShipC(s), true)) && Allowed(BlankC(s), Receive(ShipC(s), true))
    ensures Handle(BlankC(s), Receive(ShipC(s), true)).node == TwoC(s) && AckC(s) in Handle(BlankC(s), Receive(ShipC(s), true)).sends
  {
    MergeTwo(FIRST, SECOND);
  }

  lemma CountsBoth(s: Setup)
    requires Distinct(s.k)
    ensures CanCall(TwoA(s), Receive(AckC(s), true)) && Handle(TwoA(s), Receive(AckC(s), true)).node == BothA(s)
  {
    var n := TwoA(s).(matchIndex := map[s.k.b := 1, s.k.c := 2], nextIndex := map[s.k.b := 2, s.k.c := 3]);
    assert TwoA(s).matchIndex[s.k.c := 2] == n.matchIndex && TwoA(s).nextIndex[s.k.c := 3] == n.nextIndex;
    CountTwo(s.k.b, s.k.c, n.matchIndex, 2);
    assert Countable(n, 2);
  }

  lemma CompactsBoth(s: Setup)
    requires Distinct(s.k) && s.ta == 1
    ensures CanCall(BothA(s), ApplyCommitted) && Handle(BothA(s), ApplyCommitted).node == CompactedA(s)
  {
    var n := BothA(s);
    var one := ApplyOne(n);
    assert one.node == n.(lastApplied := 1);
    var two := ApplyOne(one.node);
    assert two.node == n.(lastApplied := 2);
    assert ApplyLoop(two.node).node == two.node;
    assert ApplyLoop(one.node).node == two.node;
  }

  function Snap(s: Setup): Msg { SnapReq(s.k.a, s.k.b, 1, 2, 1, Some(INITIAL)) }

  lemma ShipsSnapshot(s: Setup)
    requires Distinct(s.k)
    ensures CanCall(CompactedA(s), ShipSnapshot(s.k.b))
    ensures Handle(CompactedA(s), ShipSnapshot(s.k.b)) == Out(CompactedA(s), [], {Snap(s)}, [], {})
  {
    assert s.k.b == CompactedA(s).cfg.peers[0];
  }

  lemma SnapshotSent(s: Setup) returns (run: seq<ClusterState>)
    requires Distinct(s.k) && s.ta == 1
    ensures IsGuardedRun(run) && run != [] && At(s.k, Last(run), CompactedA(s), OneB(s), TwoC(s))
    ensures Ship(s) in Last(run).msgs && Ack(s) in Last(run).msgs && Snap(s) in Last(run).msgs
  {
    run := FirstAcknowledged(s);
    run := SecondCommitted(s, run);
    CompactsBoth(s);
    run := MoveA(s.k, run, BothA(s), OneB(s), TwoC(s), ApplyCommitted);
    ShipsSnapshot(s);
    run := MoveA(s.k, run, CompactedA(s), OneB(s), TwoC(s), ShipSnapshot(s.k.b));
  }

  lemma SecondCommitted(s: Setup, before: seq<ClusterState>) returns (run: seq<ClusterState>)
    requires Distinct(s.k) && IsGuardedRun(before) && before != [] && At(s.k, Last(before), OneA(s), OneB(s), BlankC(s))
    ensures IsGuardedRun(run) && run != [] && At(s.k, Last(run), BothA(s), OneB(s), TwoC(s)) && Last(before).msgs <= Last(run).msgs
  {
    ProposesSecond(s);
    run := MoveA(s.k, before, OneA(s), OneB(s), BlankC(s), Submit(NOOP, false));
    ReplicatesBoth(s);
    run := MoveA(s.k, run, TwoA(s), OneB(s), BlankC(s), Replicate(s.k.c, 0));
    AcceptsBoth(s);
    run := MoveC(s.k, run, TwoA(s), OneB(s), BlankC(s), Receive(ShipC(s), true));
    CountsBoth(s);
    run := MoveA(s.k, run, TwoA(s), OneB(s), TwoC(s), Receive(AckC(s), true));
  }

  // ---- B crashes while it installs the snapshot ----

  lemma TornHere(s: Setup)
    requires Distinct(s.k)
    ensures CanCall(OneB(s), Receive(Snap(s), true)) && TornInstall(OneB(s), Receive(Snap(s), true), 1)
    ensures |Handle(OneB(s), Receive(Snap(s), true)).writes| == 3
  {
  }

  /**
   In every three-node cluster there is a run, whose last step is a crash inside InstallSnapshot, after
   which a follower still in the term no longer covers an entry it acknowledged.
   */
  lemma AcknowledgedLost(k: Trio) returns (run: seq<ClusterState>, q: Msg, m: Msg)
    requires Distinct(k)
    ensures IsGuardedRun(run) && run != [] && q in Last(run).msgs && m in Last(run).msgs
    ensures q.AppendReq? && m.AppendReply? && m.success && m.src == q.dst == k.b && m.reqTerm == q.term
    ensures m.prevIndex == q.prevIndex && m.count == |q.entries| == 1 && k.b in Last(run).nodes
    ensures Last(run).nodes[k.b].currentTerm == q.term && !Covers(Last(run).nodes[k.b], Last(run).applied, q.entries[0])
  {
    var s := Setup(k, 1, -1);
    var r := SnapshotSent(s);
    var c' := CrashesB(s, r);
    run, q, m := r + [c'], Ship(s), Ack(s);
  }

  lemma CrashesB(s: Setup, r: seq<ClusterState>) returns (c': ClusterState)
    requires Distinct(s.k) && IsGuardedRun(r) && r != [] && At(s.k, Last(r), CompactedA(s), OneB(s), TwoC(s)) && Snap(s) in Last(r).msgs
    ensures IsGuardedRun(r + [c']) && c'.msgs == Last(r).msgs && s.k.b in c'.nodes
    ensures c'.nodes[s.k.b].currentTerm == 1 && |c'.nodes[s.k.b].entries| == 1 && c'.nodes[s.k.b].snapshotIndex == 0
  {
    TornHere(s);
    var step := Crash(s.k.b, Receive(Snap(s), true), 1);
    c' := MoveCrash(r, step);
    var steps :| IsRun(r, steps);
    var st := StateOf(r, steps, |r| - 1);
    TornInState(Last(r), st, step);
  }
}
