/** What leaders send and learn, proposals, applying and compaction refine the consensus core. */
module SimLeader {
  import opened JukeboxTypes
  import opened RaftLog
  import opened Storage
  import opened Node
  import opened Cluster
  import opened Consensus
  import opened ConsensusSteps
  import opened ConsensusLogs
  import opened ConsensusSafety
  import opened Relation
  import opened Compaction
  import opened SimAppend
  import opened SimElect

  // ---- Sending ----

  /** A leader's log is its reign's. */
  lemma LeaderLog(s: State, v: Id, n: NodeState)
    requires Inv(s) && NodeRel(s, v, n) && n.role == Leader
    ensures n.currentTerm in s.reigns && s.reigns[n.currentTerm].log == s.servers[v].log
    ensures s.reigns[n.currentTerm].leader == v && s.reigns[n.currentTerm].commit == n.commitIndex
    ensures n.commitIndex <= |s.servers[v].log|
  {
    assert GoodReign(s, n.currentTerm);
    assert GoodCommit(s, v);
  }

  lemma ReplicateRel(s: State, v: Id, n: NodeState, peer: Id, rid: nat)
    requires Inv(s) && NodeRel(s, v, n) && CanReplicate(n, peer)
    ensures MsgRel(s, ReplicateTo(n, peer, rid))
  {
    var next := Get(n.nextIndex, peer);
    LeaderLog(s, v, n);
    TermTransparent(n.entries, n.snapshotIndex, s.servers[v].log, next - 1);
    SliceTransparent(n, s.servers[v].log, next);
  }

  lemma ConfirmRel(s: State, v: Id, n: NodeState, peer: Id, rid: nat, commit: nat)
    requires Inv(s) && NodeRel(s, v, n) && n.role == Leader && peer in n.cfg.peers && commit <= n.commitIndex
    ensures MsgRel(s, ConfirmTo(n, peer, rid, commit))
  {
    var next := Get(n.nextIndex, peer);
    LeaderLog(s, v, n);
    if next > 0 { TermTransparent(n.entries, n.snapshotIndex, s.servers[v].log, next - 1); }
  }

  /** All that changed is how far the snapshots sent in v's term reach, up to k. */
  ghost predicate Shipped(s: State, s': State, v: Id, k: nat) {
    && Steadfast(s, s', v) && s'.servers == s.servers && s'.reigns.Keys == s.reigns.Keys
    && (forall t :: t in s.reigns ==> t in s'.reigns && s'.reigns[t].sent <= Max(s.reigns[t].sent, k))
    && (forall t :: t in s.reigns && t in s'.reigns && t != s.servers[v].term ==> s'.reigns[t] == s.reigns[t])
  }

  /** Sending a snapshot is recorded in the reign. */
  lemma ShipSim(s: State, v: Id, n: NodeState, d: Disk, peer: Id) returns (s': State)
    requires Ready(s, v, n, d) && n.role == Leader && peer in n.cfg.peers
    ensures Inv(s') && Shipped(s, s', v, n.snapshotIndex) && NodeRel(s', v, n) && MsgRel(s', SnapshotTo(n, peer))
  {
    LeaderLog(s, v, n);
    s' := Next(s, Ship(v, n.snapshotIndex));
    ShipInv(s, v, n.snapshotIndex);
    ShipEvolves(s, v, n.snapshotIndex);
    SelfFrame(s, s', v, n, n);
  }

  lemma SendPoint(s: State, v: Id, n: NodeState, d: Disk, m: Msg)
    requires Ready(s, v, n, d) && MsgRel(s, m)
    ensures Reached(s, v, d, Out(n, [], {m}, [], {}), 0, s, n)
  {
    PointZero(s, v, n, d, Out(n, [], {m}, [], {}));
  }

  // ---- Replies ----

  /** Learning that a peer holds the log up to k, where it acknowledged as much. */
  lemma MatchRaised(s: State, v: Id, n: NodeState, p: Id, k: nat, next: map<Id, nat>)
    requires NodeRel(s, v, n) && Acked(s, p, n.currentTerm) >= k
    ensures NodeRel(s, v, n.(matchIndex := n.matchIndex[p := k], nextIndex := next))
  {
    var n' := n.(matchIndex := n.matchIndex[p := k], nextIndex := next);
    if n.role == Leader {
      forall q ensures MatchAt(s, n', q) { assert MatchAt(s, n, q); }
    }
    forall i: nat | i in n'.pending ensures WaiterAt(s, i, n'.pending[i]) { assert WaiterAt(s, i, n.pending[i]); }
  }

  lemma AppendReplyPoint(s: State, v: Id, n: NodeState, d: Disk, m: Msg, j: nat) returns (s': State, n': NodeState)
    requires Ready(s, v, n, d) && m.AppendReply? && m.dst == v && MsgRel(s, m) && n.entries != []
    requires j <= |OnAppendReply(n, m).writes|
    ensures Reached(s, v, d, OnAppendReply(n, m), j, s', n')
  {
    var o := OnAppendReply(n, m);
    if m.term > n.currentTerm {
      s', n' := StepDownPoint(s, v, n, d, m.term, j);
    } else if n.role != Leader || n.currentTerm != m.reqTerm || (m.success && m.prevIndex + m.count <= Get(n.matchIndex, m.src)) {
      s', n' := s, n;
      PointZero(s, v, n, d, o);
    } else if m.success {
      s' := AppendReplyCounts(s, v, n, d, m);
      n' := o.node;
    } else {
      s', n' := s, o.node;
      NextMoved(s, v, n, o.node.nextIndex);
      PointStill(s, v, n, d, n');
    }
  }

  lemma NextMoved(s: State, v: Id, n: NodeState, next: map<Id, nat>)
    requires NodeRel(s, v, n)
    ensures NodeRel(s, v, n.(nextIndex := next))
  {
    var n' := n.(nextIndex := next);
    if n.role == Leader {
      forall q ensures MatchAt(s, n', q) { assert MatchAt(s, n, q); }
    }
  }

  lemma AppendReplyCounts(s: State, v: Id, n: NodeState, d: Disk, m: Msg) returns (s': State)
    requires Ready(s, v, n, d) && m.AppendReply? && m.dst == v && MsgRel(s, m) && n.entries != []
    requires m.term <= n.currentTerm && n.role == Leader && n.currentTerm == m.reqTerm && m.success
    requires m.prevIndex + m.count > Get(n.matchIndex, m.src)
    ensures Reached(s, v, d, OnAppendReply(n, m), 0, s', OnAppendReply(n, m).node)
  {
    var k := m.prevIndex + m.count;
    s' := RaisedSim(s, v, n, m.src, k, n.nextIndex[m.src := k + 1]);
    CountedReply(n, m);
  }

  lemma CountedReply(n: NodeState, m: Msg)
    requires m.AppendReply? && n.entries != [] && m.term <= n.currentTerm && n.role == Leader && n.currentTerm == m.reqTerm && m.success
    requires m.prevIndex + m.count > Get(n.matchIndex, m.src)
    ensures var k := m.prevIndex + m.count;
      OnAppendReply(n, m) == Silent(AdvanceCommit(n.(matchIndex := n.matchIndex[m.src := k], nextIndex := n.nextIndex[m.src := k + 1])), [])
  {
  }

  /** Raising a match and counting anew. */
  lemma RaisedSim(s: State, v: Id, n: NodeState, p: Id, k: nat, next: map<Id, nat>) returns (s': State)
    requires Inv(s) && NodeRel(s, v, n) && n.role == Leader && n.entries != [] && Acked(s, p, n.currentTerm) >= k
    ensures Inv(s') && Evolves(s, s', v) && NodeRel(s', v, AdvanceCommit(n.(matchIndex := n.matchIndex[p := k], nextIndex := next)))
    ensures s'.servers[v].log == s.servers[v].log && s.servers[v].commit <= s'.servers[v].commit
  {
    MatchRaised(s, v, n, p, k, next);
    s' := AdvanceSim(s, v, n.(matchIndex := n.matchIndex[p := k], nextIndex := next));
  }

  lemma SnapReplyPoint(s: State, v: Id, n: NodeState, d: Disk, m: Msg, j: nat) returns (s': State, n': NodeState)
    requires Ready(s, v, n, d) && m.SnapReply? && m.dst == v && MsgRel(s, m)
    requires j <= |OnSnapReply(n, m).writes|
    ensures Reached(s, v, d, OnSnapReply(n, m), j, s', n')
  {
    var o := OnSnapReply(n, m);
    if m.term > n.currentTerm {
      s', n' := StepDownPoint(s, v, n, d, m.term, j);
    } else if n.role != Leader || n.currentTerm != m.reqTerm || m.lastIndex <= Get(n.matchIndex, m.src) {
      s', n' := s, n;
      PointZero(s, v, n, d, o);
    } else {
      s', n' := s, o.node;
      MatchRaised(s, v, n, m.src, m.lastIndex, n'.nextIndex);
      PointStill(s, v, n, d, n');
    }
  }

  // ---- Proposals ----

  /** The proposal before it is counted. */
  function Proposed(n: NodeState, payload: Payload, wait: bool): NodeState
    requires n.entries != []
  {
    var e := Entry(n.currentTerm, LastIndex(n) + 1, payload);
    n.(entries := n.entries + [e], pending := if wait then n.pending[e.index := Waiter(e.term, payload)] else n.pending)
  }

  lemma ProposedRel(s: State, s': State, v: Id, n: NodeState, payload: Payload, wait: bool)
    requires Inv(s) && NodeRel(s, v, n) && n.entries != [] && n.role == Leader && LastIndex(n) == |s.servers[v].log|
    requires Enabled(s, Extend(v, payload)) && s' == Next(s, Extend(v, payload)) && Evolves(s, s', v)
    ensures NodeRel(s', v, Proposed(n, payload, wait))
  {
    var n' := Proposed(n, payload, wait);
    LeaderLog(s, v, n);
    SelfFrame(s, s', v, n, n'.(pending := n.pending));
    EntriesAppend(n.entries, n.snapshotIndex, s.servers[v].log, Entry(n.currentTerm, LastIndex(n) + 1, payload));
    forall p ensures MatchAt(s', n', p) { assert MatchAt(s', n'.(pending := n.pending), p); }
    forall i: nat | i in n'.pending ensures WaiterAt(s', i, n'.pending[i]) {
      if !(wait && i == LastIndex(n) + 1) { assert WaiterAt(s', i, n'.(pending := n.pending).pending[i]); }
    }
  }

  lemma ExtendSim(s: State, v: Id, n: NodeState, d: Disk, payload: Payload, wait: bool) returns (s': State)
    requires Ready(s, v, n, d) && n.entries != [] && n.role == Leader
    ensures Inv(s') && Evolves(s, s', v) && NodeRel(s', v, Proposed(n, payload, wait))
    ensures s'.servers[v].log == s.servers[v].log + [Entry(n.currentTerm, LastIndex(n) + 1, payload)]
    ensures s'.servers[v].commit == s.servers[v].commit
  {
    ReadyValid(s, v, n, d);
    LeaderLog(s, v, n);
    s' := Next(s, Extend(v, payload));
    ExtendInv(s, v, payload);
    ExtendEvolves(s, v, payload);
    ProposedRel(s, s', v, n, payload, wait);
  }

  lemma ProposeSim(s: State, v: Id, n: NodeState, d: Disk, payload: Payload, wait: bool) returns (s': State)
    requires Ready(s, v, n, d) && n.entries != [] && n.role == Leader
    ensures Reached(s, v, d, ProposeEntry(n, payload, wait), 1, s', ProposeEntry(n, payload, wait).node)
  {
    var e := Entry(n.currentTerm, LastIndex(n) + 1, payload);
    var s1 := ExtendSim(s, v, n, d, payload, wait);
    s' := AdvanceSim(s1, v, Proposed(n, payload, wait));
    EvolvesTrans(s, s1, s', v);
    OneOnDisk(s', v, n, d, s.servers[v].log, e);
    assert [Append([e])][..1] == [Append([e])];
  }

  lemma ProposePoint(s: State, v: Id, n: NodeState, d: Disk, payload: Payload, wait: bool, j: nat) returns (s': State, n': NodeState)
    requires Ready(s, v, n, d) && n.entries != [] && n.role == Leader && j <= |ProposeEntry(n, payload, wait).writes|
    ensures Reached(s, v, d, ProposeEntry(n, payload, wait), j, s', n')
  {
    if j == 0 {
      s', n' := s, n;
      PointZero(s, v, n, d, ProposeEntry(n, payload, wait));
    } else {
      s' := ProposeSim(s, v, n, d, payload, wait);
      n' := ProposeEntry(n, payload, wait).node;
    }
  }

  // ---- Applying and compacting ----

  lemma ApplyOneSound(n: NodeState, e: Entry)
    requires Valid(n) && n.lastApplied < n.commitIndex
    ensures var o := ApplyOne(n);
      && Valid(o.node) && o.node.entries == n.entries && o.node.snapshotIndex == n.snapshotIndex
      && o.node.commitIndex == n.commitIndex && o.node.lastApplied == n.lastApplied + 1
      && (e in o.applied ==> n.snapshotIndex < e.index <= n.commitIndex && n.entries[e.index - n.snapshotIndex] == e)
  {
  }

  /** Only committed entries are applied. */
  lemma {:induction false} AppliedSound(n: NodeState, e: Entry)
    requires Valid(n) && e in ApplyLoop(n).applied
    ensures n.snapshotIndex < e.index <= n.commitIndex && n.entries[e.index - n.snapshotIndex] == e
    decreases n.commitIndex - n.lastApplied
  {
    if n.lastApplied < n.commitIndex {
      ApplyOneSound(n, e);
      if e !in ApplyOne(n).applied { AppliedSound(ApplyOne(n).node, e); }
    }
  }

  lemma {:induction false} PendingShrinks(n: NodeState, i: nat)
    requires Valid(n) && i in ApplyLoop(n).node.pending
    ensures i in n.pending && ApplyLoop(n).node.pending[i] == n.pending[i]
    decreases n.commitIndex - n.lastApplied
  {
    if n.lastApplied < n.commitIndex { PendingShrinks(ApplyOne(n).node, i); }
  }

  lemma AppliedCertified(s: State, v: Id, n: NodeState, d: Disk)
    requires Ready(s, v, n, d) && Valid(n)
    ensures AppliedRel((set e | e in ApplyLoop(n).applied), s)
  {
    forall e | e in ApplyLoop(n).applied ensures EntryCertified(s, e) {
      AppliedSound(n, e);
      assert GoodCommit(s, v);
      assert e == s.servers[v].log[e.index - 1];
    }
  }

  lemma ApplyLoopRel(s: State, v: Id, n: NodeState, d: Disk)
    requires Ready(s, v, n, d) && Valid(n)
    ensures Ready(s, v, ApplyLoop(n).node, d)
  {
    var n' := ApplyLoop(n).node;
    forall i: nat | i in n'.pending ensures WaiterAt(s, i, n'.pending[i]) {
      PendingShrinks(n, i);
      assert WaiterAt(s, i, n.pending[i]);
    }
    if n.role == Leader {
      forall p ensures MatchAt(s, n', p) { assert MatchAt(s, n, p); }
    }
  }

  lemma CompactedRel(s: State, v: Id, n: NodeState, d: Disk)
    requires Ready(s, v, n, d) && ShouldCompact(n)
    ensures NodeRel(s, v, Compacted(n)) && n.lastApplied <= |s.servers[v].log|
  {
    var log := s.servers[v].log;
    var n' := Compacted(n);
    assert GoodCommit(s, v);
    TermTransparent(n.entries, n.snapshotIndex, log, n.lastApplied);
    SliceTransparent(n, log, n.lastApplied + 1);
    if n.role == Leader {
      forall p ensures MatchAt(s, n', p) { assert MatchAt(s, n, p); }
    }
  }

  /** Compaction, cut short after any of its storage calls. */
  lemma CompactPoint(s: State, v: Id, n: NodeState, d: Disk, o: Out, j: nat) returns (n': NodeState)
    requires Ready(s, v, n, d) && ShouldCompact(n) && o.node == Compacted(n) && o.writes == CompactWrites(n) && o.sends == {}
    requires j <= |o.writes|
    ensures Reached(s, v, d, o, j, s, n')
  {
    EvolvesRefl(s, v);
    CompactedRel(s, v, n, d);
    var ws := CompactWrites(n);
    if j == 0 {
      n' := n;
    } else {
      n' := Compacted(n);
      CompactOnDisk(d.log, n.snapshotIndex, s.servers[v].log, n.lastApplied);
      ReplayOne(d, ws[0]);
      ReplayTwo(d, ws[0], ws[1]);
      assert ws[..j] == if j == 1 then [ws[0]] else [ws[0], ws[1]];
    }
  }

  lemma ApplyPoint(s: State, v: Id, n: NodeState, d: Disk, j: nat) returns (n': NodeState)
    requires Ready(s, v, n, d) && Valid(n) && j <= |ApplyReady(n).writes|
    ensures Reached(s, v, d, ApplyReady(n), j, s, n')
  {
    var o := ApplyLoop(n);
    ApplyLoopRel(s, v, n, d);
    if ShouldCompact(o.node) {
      n' := CompactPoint(s, v, o.node, d, ApplyReady(n), j);
    } else {
      n' := o.node;
      PointZero(s, v, o.node, d, ApplyReady(n));
    }
  }
}
