/**
 What has been handed to state machines is always a prefix of the committed log: every entry up to any
 node's lastApplied, and up to any snapshot sent, was applied by some node, and so was every answered command.
 */
module AppliedLog {
  import opened JukeboxTypes
  import opened JukeboxSpec
  import opened RaftLog
  import opened Storage
  import opened Node
  import opened Cluster
  import opened Consensus
  import opened ConsensusSteps
  import opened ConsensusLogs
  import opened ConsensusSafety
  import opened Relation
  import opened Compaction
  import opened SimAppend
  import opened SimLeader
  import opened Simulation
  import opened Machine

  /** The first k entries of a log have all been applied somewhere. */
  ghost predicate Within(applied: set<Entry>, log: Log, k: nat) {
    k <= |log| && forall i :: 0 <= i < k ==> log[i] in applied
  }

  ghost predicate NodeLogged(c: ClusterState, s: State, v: Id) {
    v in c.nodes && v in s.servers ==> Within(c.applied, s.servers[v].log, c.nodes[v].lastApplied)
  }

  ghost predicate ReignLogged(applied: set<Entry>, s: State, t: nat) {
    t in s.reigns ==> Within(applied, s.reigns[t].log, s.reigns[t].sent)
  }

  ghost predicate LoggedBy(applied: set<Entry>, s: State, e: Entry, t: nat) {
    && t in s.reigns && 0 < e.index <= s.reigns[t].commit && e.index <= |s.reigns[t].log|
    && s.reigns[t].log[e.index - 1] == e && Within(applied, s.reigns[t].log, e.index)
  }

  /** An applied entry stands in some leader's committed log, all of which up to it was applied. */
  ghost predicate EntryLogged(applied: set<Entry>, s: State, e: Entry) {
    exists t {:trigger LoggedBy(applied, s, e, t)} :: LoggedBy(applied, s, e, t)
  }

  function Answered(a: Answer): Entry {
    Entry(a.term, a.index, a.payload)
  }

  ghost predicate Logged(c: ClusterState, s: State) {
    && (forall v {:trigger NodeLogged(c, s, v)} :: NodeLogged(c, s, v))
    && (forall t: nat {:trigger ReignLogged(c.applied, s, t)} :: ReignLogged(c.applied, s, t))
    && (forall e {:trigger EntryLogged(c.applied, s, e)} :: e in c.applied ==> EntryLogged(c.applied, s, e))
    && (forall a {:trigger Answered(a)} :: a in c.answers ==> Answered(a) in c.applied)
  }

  lemma WithinMoves(applied: set<Entry>, applied': set<Entry>, log: Log, log': Log, k: nat, j: nat)
    requires Within(applied, log, k) && applied <= applied' && j <= k && Agree(log, log', j)
    ensures Within(applied', log', j)
  {
  }

  // ---- The apply loop ----

  lemma {:induction false} LoopCovers(n: NodeState, i: nat)
    requires Valid(n) && n.snapshotIndex <= n.lastApplied < i <= n.commitIndex
    ensures n.entries[i - n.snapshotIndex] in ApplyLoop(n).applied
    decreases n.commitIndex - n.lastApplied
  {
    var one := ApplyOne(n);
    ApplyOneSound(n, n.entries[i - n.snapshotIndex]);
    if i > n.lastApplied + 1 { LoopCovers(one.node, i); } else { assert one.applied == [n.entries[i - n.snapshotIndex]]; }
  }

  /** After the loop everything up to the commit index has been applied. */
  lemma LoopLogs(n: NodeState, log: Log, applied: set<Entry>, applied': set<Entry>)
    requires Valid(n) && Within(applied, log, n.lastApplied) && EntriesRel(n.entries, n.snapshotIndex, log)
    requires n.snapshotIndex <= n.lastApplied && n.commitIndex <= |log|
    requires applied <= applied' && forall e :: e in ApplyLoop(n).applied ==> e in applied'
    ensures Within(applied', log, n.commitIndex)
  {
    forall i | 0 <= i < n.commitIndex ensures log[i] in applied' {
      if i >= n.lastApplied {
        LoopCovers(n, i + 1);
        assert n.entries[i + 1 - n.snapshotIndex] == log[i];
      }
    }
  }

  lemma OneAnswers(s: State, v: Id, n: NodeState, a: Answer)
    requires Inv(s) && NodeRel(s, v, n) && Valid(n) && n.lastApplied < n.commitIndex && a in ApplyOne(n).answers
    ensures Answered(a) in ApplyOne(n).applied
  {
    var log := s.servers[v].log;
    var idx := n.lastApplied + 1;
    assert GoodCommit(s, v) && GoodServer(s, v);
    assert n.entries[idx - n.snapshotIndex] == log[idx - 1];
    assert WaiterAt(s, idx, n.pending[idx]);
    assert RootedAt(s.reigns, log, idx - 1);
  }

  /** What the loop answers it has just applied. */
  lemma {:induction false} LoopAnswers(s: State, v: Id, n: NodeState, a: Answer)
    requires Inv(s) && NodeRel(s, v, n) && Valid(n) && a in ApplyLoop(n).answers
    ensures Answered(a) in ApplyLoop(n).applied
    decreases n.commitIndex - n.lastApplied
  {
    if n.lastApplied < n.commitIndex {
      ApplyOneRel(s, v, n);
      if a in ApplyOne(n).answers { OneAnswers(s, v, n, a); } else { LoopAnswers(s, v, ApplyOne(n).node, a); }
    }
  }

  lemma StepAnswers(s: State, v: Id, n: NodeState, d: Disk, call: Call, a: Answer)
    requires Ready(s, v, n, d) && CanCall(n, call) && a in Handle(n, call).answers
    ensures call.ApplyCommitted? && Answered(a) in Handle(n, call).applied
  {
    match call
    case ApplyCommitted => LoopAnswers(s, v, n, a);
    case Receive(m, calm) => if !m.SnapReq? { MessageUntouched(n, m, calm); }
    case _ =>
  }

  // ---- The acting node ----

  /** A leader's snapshot, taken up by v, reaches no further than what was applied. */
  lemma ReceivedLogged(s: State, s': State, v: Id, m: Msg, applied: set<Entry>, applied': set<Entry>)
    requires m.SnapReq? && MsgRel(s, m) && Continues(s, s', v) && Inv(s') && ReignLogged(applied, s, m.term) && applied <= applied'
    requires s'.servers[v].term <= m.term && m.lastIndex <= s'.servers[v].commit
    ensures Within(applied', s'.servers[v].log, m.lastIndex)
  {
    MsgFrame(s, s', v, m);
    assert ReignEvolves(s, s', v, m.term);
    CommitInLeader(s', v, m.term);
    WithinMoves(applied, applied', s.reigns[m.term].log, s'.servers[v].log, s.reigns[m.term].sent, m.lastIndex);
  }

  lemma ActLogged(s: State, s': State, v: Id, n: NodeState, d: Disk, call: Call, applied: set<Entry>, applied': set<Entry>)
    requires Ready(s, v, n, d) && CanCall(n, call) && Within(applied, s.servers[v].log, n.lastApplied)
    requires call.Receive? ==> MsgRel(s, call.m) && (call.m.SnapReq? ==> ReignLogged(applied, s, call.m.term))
    requires Inv(s') && Steadfast(s, s', v) && NodeRel(s', v, Handle(n, call).node)
    requires applied' == applied + set e | e in Handle(n, call).applied
    ensures Within(applied', s'.servers[v].log, Handle(n, call).node.lastApplied)
  {
    if LeavesMachine(n, call) {
      LeftLogged(s.servers[v].log, s'.servers[v].log, n, call, applied, applied');
    } else if call.ApplyCommitted? {
      ApplyLogged(s, s', v, n, d, applied, applied');
      assert Handle(n, call).node.lastApplied == n.commitIndex;
    } else {
      ReceiveLogged(s, s', v, n, call.m, applied, applied');
    }
  }

  lemma ReceiveLogged(s: State, s': State, v: Id, n: NodeState, m: Msg, applied: set<Entry>, applied': set<Entry>)
    requires m.SnapReq? && MsgRel(s, m) && Inv(s') && Steadfast(s, s', v) && NodeRel(s', v, OnSnapshot(n, m).node)
    requires ReignLogged(applied, s, m.term) && applied <= applied' && m.term >= n.currentTerm && m.lastIndex > n.snapshotIndex
    requires Within(applied, s.servers[v].log, n.lastApplied) && n.lastApplied <= s.servers[v].commit
    ensures Within(applied', s'.servers[v].log, OnSnapshot(n, m).node.lastApplied)
  {
    SnapshotTaken(n, m);
    InstallLogged(s, s', v, Follow(n, m.term, m.src), m, applied, applied');
  }

  lemma LeftLogged(log: Log, log': Log, n: NodeState, call: Call, applied: set<Entry>, applied': set<Entry>)
    requires CanCall(n, call) && LeavesMachine(n, call) && Within(applied, log, n.lastApplied) && applied <= applied'
    requires n.lastApplied <= n.commitIndex && Agree(log, log', n.commitIndex)
    ensures Within(applied', log', Handle(n, call).node.lastApplied)
  {
    MachineLeft(n, call);
    WithinMoves(applied, applied', log, log', n.lastApplied, n.lastApplied);
  }

  lemma ApplyLogged(s: State, s': State, v: Id, n: NodeState, d: Disk, applied: set<Entry>, applied': set<Entry>)
    requires Ready(s, v, n, d) && Valid(n) && Within(applied, s.servers[v].log, n.lastApplied) && Steadfast(s, s', v)
    requires applied <= applied' && forall e :: e in ApplyLoop(n).applied ==> e in applied'
    ensures Within(applied', s.servers[v].log, n.commitIndex) && Within(applied', s'.servers[v].log, n.commitIndex)
  {
    assert GoodCommit(s, v);
    LoopLogs(n, s.servers[v].log, applied, applied');
    WithinMoves(applied', applied', s.servers[v].log, s'.servers[v].log, n.commitIndex, n.commitIndex);
  }

  lemma InstallLogged(s: State, s': State, v: Id, n: NodeState, m: Msg, applied: set<Entry>, applied': set<Entry>)
    requires m.SnapReq? && MsgRel(s, m) && Inv(s') && Steadfast(s, s', v) && NodeRel(s', v, Installed(n, m))
    requires ReignLogged(applied, s, m.term) && applied <= applied' && n.currentTerm == m.term && m.lastIndex > n.snapshotIndex
    requires Within(applied, s.servers[v].log, n.lastApplied) && n.lastApplied <= s.servers[v].commit
    ensures Within(applied', s'.servers[v].log, Installed(n, m).lastApplied)
  {
    ReceivedLogged(s, s', v, m, applied, applied');
    WithinMoves(applied, applied', s.servers[v].log, s'.servers[v].log, n.lastApplied, n.lastApplied);
  }

  lemma CrashLogged(s: State, s': State, v: Id, n: NodeState, d: Disk, call: Call, at: nat, applied: set<Entry>, applied': set<Entry>)
    requires Ready(s, v, n, d) && CanCall(n, call) && at <= |Handle(n, call).writes| && Within(applied, s.servers[v].log, n.lastApplied)
    requires call.Receive? ==> MsgRel(s, call.m) && (call.m.SnapReq? ==> ReignLogged(applied, s, call.m.term))
    requires Inv(s') && Continues(s, s', v) && NodeRel(s', v, Load(n.cfg, Replay(d, Handle(n, call).writes[..at])))
    requires Steadfast(s, s', v) ||
      (Agree(s.servers[v].log, s'.servers[v].log, n.snapshotIndex) && Replay(d, Handle(n, call).writes[..at]).snap == d.snap)
    requires call.Receive? && call.m.SnapReq? ==> s'.servers[v].term <= Max(n.currentTerm, call.m.term)
    requires applied' == applied + set e | e in Handle(n, call).applied
    ensures Within(applied', s'.servers[v].log, Replay(d, Handle(n, call).writes[..at]).snap.lastIndex)
  {
    var ws := Handle(n, call).writes[..at];
    var d' := Replay(d, ws);
    var log, log' := s.servers[v].log, s'.servers[v].log;
    SnapOnDisk(d, ws);
    if d'.snap == d.snap {
      WithinMoves(applied, applied', log, log', n.lastApplied, n.snapshotIndex);
    } else {
      var i :| 0 <= i < |ws| && ws[i].SaveSnap? && d'.snap == ws[i].snap;
      SavedSnap(n, call, i);
      if call.ApplyCommitted? {
        ApplyLogged(s, s', v, n, d, applied, applied');
      } else {
        ReceivedLogged(s, s', v, call.m, applied, applied');
      }
    }
  }

  ghost predicate Stepped(c: ClusterState, s: State, step: Step, s': State) {
    && Rel(c, s) && Inv(s) && CanStep(c, step) && Inv(s') && Rel(Take(c, step), s')
    && Continues(s, s', step.v) && StepKeeps(c, s, step, s')
  }

  lemma ActorLogged(c: ClusterState, s: State, step: Step, s': State)
    requires Stepped(c, s, step, s') && Logged(c, s)
    ensures NodeLogged(Take(c, step), s', step.v)
  {
    var v, call := step.v, step.call;
    NodeReady(c, s, v);
    assert NodeLogged(c, s, v);
    assert call.Receive? ==> MsgRel(s, call.m);
    assert call.Receive? && call.m.SnapReq? ==> ReignLogged(c.applied, s, call.m.term);
    assert NodeRel(s', v, Take(c, step).nodes[v]);
    if step.Act? {
      ActLogged(s, s', v, c.nodes[v], c.disks[v], call, c.applied, Take(c, step).applied);
    } else {
      CrasherLogged(c, s, step, s');
    }
  }

  lemma CrasherLogged(c: ClusterState, s: State, step: Step, s': State)
    requires Stepped(c, s, step, s') && step.Crash? && Ready(s, step.v, c.nodes[step.v], c.disks[step.v])
    requires NodeRel(s', step.v, Take(c, step).nodes[step.v]) && Within(c.applied, s.servers[step.v].log, c.nodes[step.v].lastApplied)
    requires step.call.Receive? ==> MsgRel(s, step.call.m) && (step.call.m.SnapReq? ==> ReignLogged(c.applied, s, step.call.m.term))
    ensures NodeLogged(Take(c, step), s', step.v)
  {
    var v, call := step.v, step.call;
    var n, d := c.nodes[v], c.disks[v];
    if call.Receive? && call.m.SnapReq? { SnapshotHard(n, d, call.m, step.at); }
    CrashLogged(s, s', v, n, d, call, step.at, c.applied, Take(c, step).applied);
  }

  // ---- One step ----

  lemma NodesLogged(c: ClusterState, s: State, step: Step, s': State, u: Id)
    requires Stepped(c, s, step, s') && Logged(c, s)
    ensures NodeLogged(Take(c, step), s', u)
  {
    if u == step.v {
      ActorLogged(c, s, step, s');
    } else {
      assert NodeLogged(c, s, u) && ServerStands(s, s', u);
    }
  }

  lemma ReignsLogged(c: ClusterState, s: State, step: Step, s': State, t: nat)
    requires Stepped(c, s, step, s') && Logged(c, s)
    ensures ReignLogged(Take(c, step).applied, s', t)
  {
    var v := step.v;
    var c' := Take(c, step);
    assert ReignLogged(c.applied, s, t);
    if t in s.reigns {
      assert ReignEvolves(s, s', v, t);
      WithinMoves(c.applied, c'.applied, s.reigns[t].log, s'.reigns[t].log, s.reigns[t].sent, s.reigns[t].sent);
      if step.Act? && step.call.ShipSnapshot? {
        ShippedLogged(c, s, step, s', t);
      } else {
        assert SentAlike(s, s', t);
      }
    } else if step.Act? && step.call.ShipSnapshot? {
    } else {
      assert SentAlike(s, s', t);
    }
  }

  lemma ShippedLogged(c: ClusterState, s: State, step: Step, s': State, t: nat)
    requires Stepped(c, s, step, s') && Logged(c, s) && step.Act? && step.call.ShipSnapshot? && t in s.reigns
    ensures ReignLogged(Take(c, step).applied, s', t)
  {
    var v := step.v;
    assert ReignLogged(c.applied, s, t) && NodeLogged(c, s, v);
    NodeReady(c, s, v);
    ShippedWithin(s, s', v, c.nodes[v], t, c.applied);
  }

  lemma ShippedWithin(s: State, s': State, v: Id, n: NodeState, t: nat, applied: set<Entry>)
    requires Inv(s) && NodeRel(s, v, n) && n.role == Leader && Shipped(s, s', v, n.snapshotIndex) && t in s.reigns
    requires Within(applied, s.reigns[t].log, s.reigns[t].sent) && Within(applied, s.servers[v].log, n.lastApplied)
    ensures ReignLogged(applied, s', t)
  {
    LeaderLog(s, v, n);
    assert ReignEvolves(s, s', v, t);
    var log, log' := s.reigns[t].log, s'.reigns[t].log;
    WithinMoves(applied, applied, log, log', s.reigns[t].sent, s.reigns[t].sent);
    if t == n.currentTerm { WithinMoves(applied, applied, log, log', n.lastApplied, n.snapshotIndex); }
  }

  /** The entries a step applies are certified, with everything before them applied. */
  lemma NewLogged(c: ClusterState, s: State, step: Step, s': State, e: Entry)
    requires Stepped(c, s, step, s') && Logged(c, s) && e in Handle(c.nodes[step.v], step.call).applied
    ensures EntryLogged(Take(c, step).applied, s', e)
  {
    var v := step.v;
    NodeReady(c, s, v);
    AppliesOnly(c.nodes[v], step.call);
    assert NodeLogged(c, s, v);
    LoopLogged(s, s', v, c.nodes[v], c.disks[v], c.applied, Take(c, step).applied, e);
  }

  lemma LoopLogged(s: State, s': State, v: Id, n: NodeState, d: Disk, applied: set<Entry>, applied': set<Entry>, e: Entry)
    requires Ready(s, v, n, d) && Valid(n) && Within(applied, s.servers[v].log, n.lastApplied) && Continues(s, s', v)
    requires applied <= applied' && (forall f :: f in ApplyLoop(n).applied ==> f in applied') && e in ApplyLoop(n).applied
    ensures EntryLogged(applied', s', e)
  {
    var log, t := s.servers[v].log, s.servers[v].cert;
    assert GoodCommit(s, v);
    LoopLogs(n, log, applied, applied');
    AppliedSound(n, e);
    assert n.entries[e.index - n.snapshotIndex] == log[e.index - 1];
    assert ReignEvolves(s, s', v, t);
    WithinMoves(applied', applied', log, s'.reigns[t].log, n.commitIndex, e.index);
    assert LoggedBy(applied', s', e, t);
  }

  /** Only the apply loop applies. */
  lemma AppliesOnly(n: NodeState, call: Call)
    requires CanCall(n, call) && Handle(n, call).applied != []
    ensures call.ApplyCommitted?
  {
    if call.Receive? && !call.m.SnapReq? { MessageUntouched(n, call.m, call.calm); }
  }

  lemma EntriesLogged(c: ClusterState, s: State, step: Step, s': State, e: Entry)
    requires Stepped(c, s, step, s') && Logged(c, s) && e in Take(c, step).applied
    ensures EntryLogged(Take(c, step).applied, s', e)
  {
    if e in c.applied {
      assert EntryLogged(c.applied, s, e);
      var t :| LoggedBy(c.applied, s, e, t);
      assert ReignEvolves(s, s', step.v, t);
      WithinMoves(c.applied, Take(c, step).applied, s.reigns[t].log, s'.reigns[t].log, e.index, e.index);
      assert LoggedBy(Take(c, step).applied, s', e, t);
    } else {
      NewLogged(c, s, step, s', e);
    }
  }

  /** Every step keeps what has been applied a prefix of the committed log. */
  lemma LoggedStep(c: ClusterState, s: State, step: Step, s': State)
    requires Stepped(c, s, step, s') && Logged(c, s)
    ensures Logged(Take(c, step), s')
  {
    var c' := Take(c, step);
    forall u ensures NodeLogged(c', s', u) { NodesLogged(c, s, step, s', u); }
    forall t: nat ensures ReignLogged(c'.applied, s', t) { ReignsLogged(c, s, step, s', t); }
    forall e | e in c'.applied ensures EntryLogged(c'.applied, s', e) { EntriesLogged(c, s, step, s', e); }
    NodeReady(c, s, step.v);
    forall a | a in c'.answers ensures Answered(a) in c'.applied {
      if a !in c.answers { StepAnswers(s, step.v, c.nodes[step.v], c.disks[step.v], step.call, a); }
    }
  }

  lemma StartLogged(c: ClusterState)
    requires Start(c)
    ensures Logged(c, Init(c.nodes.Keys))
  {
  }
}
