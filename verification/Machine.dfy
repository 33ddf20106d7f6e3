/**
 The state machine of every node is the fold of its committed log up to lastApplied,
 snapshots carry such folds, and Submit answers with what the log position produced.
 */
module Machine {
  import opened JukeboxTypes
  import opened JukeboxSpec
  import opened RaftLog
  import opened Storage
  import opened Node
  import opened Cluster
  import opened Consensus
  import opened ConsensusSteps
  import opened ConsensusLogs
  import opened ConsensusSafety
  import opened Relation
  import opened Compaction
  import opened SimAppend
  import opened SimLeader
  import opened Simulation

  /** The jukebox after a log's commands, in order. */
  function Fold(log: Log): JukeState {
    if log == [] then INITIAL else Apply(Fold(log[..|log| - 1]), log[|log| - 1].payload).0
  }

  ghost predicate FoldedSnap(data: Option<JukeState>, k: nat, log: Log) {
    k <= |log| && data == if k == 0 then None else Some(Fold(log[..k]))
  }

  ghost predicate Folded(n: NodeState, log: Log) {
    && n.lastApplied <= |log| && n.machine == Fold(log[..n.lastApplied])
    && FoldedSnap(n.snapshotData, n.snapshotIndex, log)
  }

  ghost predicate FoldedMsg(s: State, m: Msg) {
    m.SnapReq? && m.term in s.reigns ==> FoldedSnap(m.data, m.lastIndex, s.reigns[m.term].log)
  }

  /** The answer is what the committed entry at its index, which is the submitted one, produced. */
  ghost predicate Truthful(s: State, a: Answer) {
    exists t :: t in s.reigns && 0 < a.index <= s.reigns[t].commit && a.index <= |s.reigns[t].log|
                && s.reigns[t].log[a.index - 1] == Entry(a.term, a.index, a.payload)
                && a.result == Apply(Fold(s.reigns[t].log[..a.index - 1]), a.payload).1
  }

  ghost predicate FoldInv(c: ClusterState, s: State) {
    && (forall v {:trigger Folded(c.nodes[v], s.servers[v].log)} :: v in c.nodes && v in s.servers ==> Folded(c.nodes[v], s.servers[v].log))
    && (forall m {:trigger FoldedMsg(s, m)} :: m in c.msgs ==> FoldedMsg(s, m))
    && (forall a {:trigger Truthful(s, a)} :: a in c.answers ==> Truthful(s, a))
  }

  /** An arriving snapshot does not reach behind what is already applied. */
  predicate SnapshotAhead(n: NodeState, m: Msg)
    requires m.SnapReq?
  {
    m.term >= n.currentTerm && m.lastIndex > n.snapshotIndex ==> m.lastIndex >= n.lastApplied
  }

  predicate FoldGuarded(c: ClusterState, step: Step)
    requires CanStep(c, step)
  {
    step.Act? && step.call.Receive? && step.call.m.SnapReq? ==> SnapshotAhead(c.nodes[step.v], step.call.m)
  }

  lemma SameSlice(a: Log, b: Log, k: nat, c: nat)
    requires Agree(a, b, c) && k <= c
    ensures a[..k] == b[..k]
  {
  }

  lemma FoldNext(log: Log, k: nat)
    requires k < |log|
    ensures Fold(log[..k + 1]) == Apply(Fold(log[..k]), log[k].payload).0
  {
    assert log[..k + 1][..k] == log[..k];
  }

  // ---- Frames ----

  lemma FoldedStands(n: NodeState, n': NodeState, log: Log, log': Log)
    requires Folded(n, log) && Agree(log, log', n.commitIndex) && n.snapshotIndex <= n.lastApplied <= n.commitIndex
    requires n'.lastApplied == n.lastApplied && n'.machine == n.machine
    requires n'.snapshotIndex == n.snapshotIndex && n'.snapshotData == n.snapshotData
    ensures Folded(n', log')
  {
    SameSlice(log, log', n.lastApplied, n.commitIndex);
    SameSlice(log, log', n.snapshotIndex, n.commitIndex);
  }

  lemma FoldedMsgStands(s: State, s': State, v: Id, m: Msg)
    requires Continues(s, s', v) && MsgRel(s, m) && FoldedMsg(s, m)
    ensures FoldedMsg(s', m)
  {
    if m.SnapReq? {
      assert ReignEvolves(s, s', v, m.term);
      SameSlice(s.reigns[m.term].log, s'.reigns[m.term].log, m.lastIndex, |s.reigns[m.term].log|);
    }
  }

  lemma TruthfulStands(s: State, s': State, v: Id, a: Answer)
    requires Continues(s, s', v) && Truthful(s, a)
    ensures Truthful(s', a)
  {
    var t :| t in s.reigns && 0 < a.index <= s.reigns[t].commit && a.index <= |s.reigns[t].log|
      && s.reigns[t].log[a.index - 1] == Entry(a.term, a.index, a.payload)
      && a.result == Apply(Fold(s.reigns[t].log[..a.index - 1]), a.payload).1;
    assert ReignEvolves(s, s', v, t);
    SameSlice(s.reigns[t].log, s'.reigns[t].log, a.index - 1, |s.reigns[t].log|);
  }

  // ---- The apply loop ----

  lemma ApplyOneFolds(s: State, v: Id, n: NodeState)
    requires Inv(s) && NodeRel(s, v, n) && Valid(n) && n.lastApplied < n.commitIndex
    requires n.machine == Fold(s.servers[v].log[..n.lastApplied])
    ensures ApplyOne(n).node.machine == Fold(s.servers[v].log[..n.lastApplied + 1])
    ensures forall a :: a in ApplyOne(n).answers ==> Truthful(s, a)
  {
    var log := s.servers[v].log;
    var idx := n.lastApplied + 1;
    assert GoodCommit(s, v);
    assert GoodServer(s, v);
    assert n.entries[idx - n.snapshotIndex] == log[idx - 1];
    FoldNext(log, idx - 1);
    if idx in n.pending && n.pending[idx].term == log[idx - 1].term {
      assert WaiterAt(s, idx, n.pending[idx]);
      assert RootedAt(s.reigns, log, idx - 1);
      SameSlice(log, s.reigns[s.servers[v].cert].log, idx - 1, n.commitIndex);
    }
  }

  lemma ApplyOneRel(s: State, v: Id, n: NodeState)
    requires NodeRel(s, v, n) && Valid(n) && n.lastApplied < n.commitIndex
    ensures NodeRel(s, v, ApplyOne(n).node) && Valid(ApplyOne(n).node)
  {
    var n' := ApplyOne(n).node;
    forall i: nat | i in n'.pending ensures WaiterAt(s, i, n'.pending[i]) { assert WaiterAt(s, i, n.pending[i]); }
    if n.role == Leader {
      forall p ensures MatchAt(s, n', p) { assert MatchAt(s, n, p); }
    }
  }

  lemma {:induction false} ApplyLoopFolds(s: State, v: Id, n: NodeState)
    requires Inv(s) && NodeRel(s, v, n) && Valid(n)
    requires n.machine == Fold(s.servers[v].log[..n.lastApplied])
    ensures ApplyLoop(n).node.machine == Fold(s.servers[v].log[..n.commitIndex])
    ensures forall a :: a in ApplyLoop(n).answers ==> Truthful(s, a)
    decreases n.commitIndex - n.lastApplied
  {
    if n.lastApplied < n.commitIndex {
      ApplyOneFolds(s, v, n);
      ApplyOneRel(s, v, n);
      ApplyLoopFolds(s, v, ApplyOne(n).node);
    }
  }

  lemma ApplyReadyFolds(s: State, v: Id, n: NodeState)
    requires Inv(s) && NodeRel(s, v, n) && Valid(n) && Folded(n, s.servers[v].log)
    ensures Folded(ApplyReady(n).node, s.servers[v].log)
    ensures forall a :: a in ApplyReady(n).answers ==> Truthful(s, a)
  {
    assert GoodCommit(s, v);
    ApplyLoopFolds(s, v, n);
  }

  // ---- Snapshots ----

  lemma ApplyKeepsThreshold(st: JukeState, p: Payload)
    ensures Apply(st, p).0.skipThreshold == st.skipThreshold
  {
  }

  lemma {:induction false} FoldThreshold(log: Log)
    ensures Fold(log).skipThreshold == DEFAULT_SKIP_THRESHOLD
    decreases |log|
  {
    if log != [] {
      FoldThreshold(log[..|log| - 1]);
      ApplyKeepsThreshold(Fold(log[..|log| - 1]), log[|log| - 1].payload);
    }
  }

  /** Restoring a snapshot that is a fold gives that fold. */
  lemma RestoredFold(st: JukeState, data: Option<JukeState>, k: nat, log: Log)
    requires FoldedSnap(data, k, log)
    ensures Restored(st, data) == if k == 0 then st else Fold(log[..k])
  {
    FoldThreshold(log[..k]);
  }

  lemma LoadFolds(cfg: Config, d: Disk, log: Log)
    requires FoldedSnap(d.snap.data, d.snap.lastIndex, log)
    ensures Folded(Load(cfg, d), log)
  {
    RestoredFold(INITIAL, d.snap.data, d.snap.lastIndex, log);
    assert log[..0] == [];
  }

  /** Installing a leader's snapshot that is not behind lastApplied leaves the fold. */
  lemma InstallFolds(s': State, v: Id, n: NodeState, m: Msg)
    requires Inv(s') && m.SnapReq? && NodeRel(s', v, Installed(n, m)) && MsgRel(s', m) && FoldedMsg(s', m)
    requires m.term == n.currentTerm && m.lastIndex > n.snapshotIndex && m.lastIndex >= n.lastApplied
    ensures Folded(Installed(n, m), s'.servers[v].log)
  {
    CommitInLeader(s', v, m.term);
    SameSlice(s'.servers[v].log, s'.reigns[m.term].log, m.lastIndex, s'.servers[v].commit);
    RestoredFold(n.machine, m.data, m.lastIndex, s'.servers[v].log);
  }

  /** Which calls leave machine, lastApplied and snapshot as they were. */
  predicate LeavesMachine(n: NodeState, call: Call) {
    !call.ApplyCommitted? && !(call.Receive? && call.m.SnapReq? && call.m.term >= n.currentTerm && call.m.lastIndex > n.snapshotIndex)
  }

  lemma MachineLeft(n: NodeState, call: Call)
    requires CanCall(n, call) && LeavesMachine(n, call)
    ensures SameMachine(n, Handle(n, call))
  {
    if call.Receive? { MessageUntouched(n, call.m, call.calm); }
  }

  // ---- One step ----

  /** What the acting node holds after a completed section. */
  lemma ActFolds(s: State, s': State, v: Id, n: NodeState, d: Disk, call: Call)
    requires Ready(s, v, n, d) && CanCall(n, call) && Folded(n, s.servers[v].log)
    requires call.Receive? ==> MsgRel(s, call.m) && FoldedMsg(s, call.m)
    requires call.Receive? && call.m.SnapReq? ==> SnapshotAhead(n, call.m)
    requires Inv(s') && Steadfast(s, s', v) && NodeRel(s', v, Handle(n, call).node)
    ensures Folded(Handle(n, call).node, s'.servers[v].log)
  {
    if LeavesMachine(n, call) {
      LeftFolds(s.servers[v].log, s'.servers[v].log, n, call);
    } else if call.ApplyCommitted? {
      ApplyFoldsLater(s, s', v, n, d);
    } else {
      ReceiveFolds(s, s', v, n, call.m);
    }
  }

  /** What handling a snapshot that is taken up comes to. */
  lemma SnapshotTaken(n: NodeState, m: Msg)
    requires m.SnapReq? && m.term >= n.currentTerm && m.lastIndex > n.snapshotIndex
    ensures var n1 := Follow(n, m.term, m.src);
      && OnSnapshot(n, m).node == Installed(n1, m) && n1.currentTerm == m.term && n1.snapshotIndex == n.snapshotIndex
      && n1.lastApplied == n.lastApplied && n1.commitIndex == n.commitIndex
  {
  }

  lemma ReceiveFolds(s: State, s': State, v: Id, n: NodeState, m: Msg)
    requires m.SnapReq? && MsgRel(s, m) && FoldedMsg(s, m) && Inv(s') && Continues(s, s', v) && NodeRel(s', v, OnSnapshot(n, m).node)
    requires m.term >= n.currentTerm && m.lastIndex > n.snapshotIndex && m.lastIndex >= n.lastApplied
    ensures Folded(OnSnapshot(n, m).node, s'.servers[v].log)
  {
    MsgFrame(s, s', v, m);
    FoldedMsgStands(s, s', v, m);
    SnapshotTaken(n, m);
    InstallFolds(s', v, Follow(n, m.term, m.src), m);
  }

  lemma LeftFolds(log: Log, log': Log, n: NodeState, call: Call)
    requires CanCall(n, call) && LeavesMachine(n, call) && Folded(n, log) && Agree(log, log', n.commitIndex)
    requires n.snapshotIndex <= n.lastApplied <= n.commitIndex
    ensures Folded(Handle(n, call).node, log')
  {
    MachineLeft(n, call);
    FoldedStands(n, Handle(n, call).node, log, log');
  }

  lemma ApplyFoldsLater(s: State, s': State, v: Id, n: NodeState, d: Disk)
    requires Ready(s, v, n, d) && Valid(n) && Folded(n, s.servers[v].log) && Steadfast(s, s', v)
    ensures Folded(ApplyReady(n).node, s'.servers[v].log)
  {
    var n' := ApplyReady(n).node;
    ApplyReadyFolds(s, v, n);
    assert n'.commitIndex == n.commitIndex && n'.snapshotIndex <= n'.lastApplied <= n'.commitIndex;
    FoldedStands(n', n', s.servers[v].log, s'.servers[v].log);
  }

  /** Storage's snapshot is the old one or one the section saves. */
  lemma {:induction false} SnapOnDisk(d: Disk, ws: seq<Write>)
    ensures Replay(d, ws).snap == d.snap || exists i :: 0 <= i < |ws| && ws[i].SaveSnap? && Replay(d, ws).snap == ws[i].snap
    decreases |ws|
  {
    if ws != [] {
      SnapOnDisk(Do(d, ws[0]), ws[1..]);
      var rest := ws[1..];
      if i :| 0 <= i < |rest| && rest[i].SaveSnap? && Replay(d, ws).snap == rest[i].snap { assert ws[i + 1] == rest[i]; }
    }
  }

  ghost predicate CompactionSnap(n: NodeState, snap: Snapshot)
    requires Valid(n)
  {
    snap.lastIndex == n.commitIndex && snap.lastIndex > 0 && snap.data == Some(ApplyLoop(n).node.machine)
  }

  ghost predicate ReceivedSnap(n: NodeState, call: Call, snap: Snapshot) {
    && call.Receive? && call.m.SnapReq? && call.m.term >= n.currentTerm
    && snap.lastIndex == call.m.lastIndex && snap.data == call.m.data
  }

  lemma ApplySaves(n: NodeState, i: nat)
    requires Valid(n) && i < |ApplyReady(n).writes| && ApplyReady(n).writes[i].SaveSnap?
    ensures CompactionSnap(n, ApplyReady(n).writes[i].snap)
  {
  }

  lemma SnapshotSaves(n: NodeState, call: Call, i: nat)
    requires call.Receive? && call.m.SnapReq? && i < |OnSnapshot(n, call.m).writes| && OnSnapshot(n, call.m).writes[i].SaveSnap?
    ensures ReceivedSnap(n, call, OnSnapshot(n, call.m).writes[i].snap)
  {
  }

  /** The snapshots a section may save. */
  lemma SavedSnap(n: NodeState, call: Call, i: nat)
    requires CanCall(n, call) && i < |Handle(n, call).writes| && Handle(n, call).writes[i].SaveSnap?
    ensures var snap := Handle(n, call).writes[i].snap;
      (call.ApplyCommitted? && CompactionSnap(n, snap)) || ReceivedSnap(n, call, snap)
  {
    match call
    case ApplyCommitted => ApplySaves(n, i);
    case Receive(m, calm) => if m.SnapReq? { SnapshotSaves(n, call, i); } else { MessageSavesNoSnap(n, m, calm, i); }
    case _ =>
  }

  lemma MessageSavesNoSnap(n: NodeState, m: Msg, calm: bool, i: nat)
    requires n.entries != [] && !m.SnapReq? && i < |OnMessage(n, m, calm).writes|
    ensures !OnMessage(n, m, calm).writes[i].SaveSnap?
  {
    if m.AppendReq? && m.term >= n.currentTerm { AppendSavesNoSnap(Follow(n, m.term, m.src), m); }
  }

  lemma AppendSavesNoSnap(n: NodeState, m: Msg)
    requires n.entries != [] && m.AppendReq?
    ensures forall w :: w in AppendAsFollower(n, m).writes ==> !w.SaveSnap?
  {
    CutsOnly(n.entries, n.snapshotIndex, m.entries);
  }

  lemma CutsOnly(entries: seq<Entry>, snap: nat, es: seq<Entry>)
    requires entries != []
    ensures forall w :: w in Merge(entries, snap, es).cuts ==> w.TruncateSuffix?
    decreases |es|
  {
  }

  /** What a reloaded node holds, wherever in the section the crash struck. */
  lemma CrashFolds(s: State, s': State, v: Id, n: NodeState, d: Disk, call: Call, at: nat)
    requires Ready(s, v, n, d) && CanCall(n, call) && at <= |Handle(n, call).writes| && Folded(n, s.servers[v].log)
    requires call.Receive? ==> MsgRel(s, call.m) && FoldedMsg(s, call.m)
    requires Inv(s') && Continues(s, s', v) && NodeRel(s', v, Load(n.cfg, Replay(d, Handle(n, call).writes[..at])))
    requires Steadfast(s, s', v) ||
      (Agree(s.servers[v].log, s'.servers[v].log, n.snapshotIndex) && Replay(d, Handle(n, call).writes[..at]).snap == d.snap)
    requires call.Receive? && call.m.SnapReq? ==> s'.servers[v].term <= Max(n.currentTerm, call.m.term)
    ensures Folded(Load(n.cfg, Replay(d, Handle(n, call).writes[..at])), s'.servers[v].log)
  {
    var ws := Handle(n, call).writes[..at];
    var d' := Replay(d, ws);
    var log, log' := s.servers[v].log, s'.servers[v].log;
    SnapOnDisk(d, ws);
    if d'.snap == d.snap {
      SameSlice(log, log', n.snapshotIndex, n.snapshotIndex);
    } else {
      var i :| 0 <= i < |ws| && ws[i].SaveSnap? && d'.snap == ws[i].snap;
      SavedSnap(n, call, i);
      if call.ApplyCommitted? {
        ApplyLoopFolds(s, v, n);
        SameSlice(log, log', n.commitIndex, n.commitIndex);
      } else {
        ReceivedFolds(s, s', v, call.m, d'.snap.lastIndex);
      }
    }
    LoadFolds(n.cfg, d', log');
  }

  lemma ReceivedFolds(s: State, s': State, v: Id, m: Msg, k: nat)
    requires m.SnapReq? && MsgRel(s, m) && FoldedMsg(s, m) && Continues(s, s', v) && Inv(s') && k == m.lastIndex
    requires s'.servers[v].term <= m.term && k <= s'.servers[v].commit
    ensures FoldedSnap(m.data, k, s'.servers[v].log)
  {
    MsgFrame(s, s', v, m);
    FoldedMsgStands(s, s', v, m);
    CommitInLeader(s', v, m.term);
    SameSlice(s'.servers[v].log, s'.reigns[m.term].log, k, s'.servers[v].commit);
  }

  lemma {:induction false} HardOnDisk(d: Disk, ws: seq<Write>, term: nat)
    requires d.hard.term <= term && forall w :: w in ws && w.SaveHard? ==> w.hard.term <= term
    ensures Replay(d, ws).hard.term <= term
    decreases |ws|
  {
    if ws != [] {
      assert ws[0] in ws && forall w :: w in ws[1..] ==> w in ws;
      HardOnDisk(Do(d, ws[0]), ws[1..], term);
    }
  }

  lemma SnapshotHard(n: NodeState, d: Disk, m: Msg, at: nat)
    requires m.SnapReq? && at <= |OnSnapshot(n, m).writes| && d.hard.term == n.currentTerm
    ensures Replay(d, OnSnapshot(n, m).writes[..at]).hard.term <= Max(n.currentTerm, m.term)
  {
    var ws := OnSnapshot(n, m).writes;
    assert forall w :: w in ws[..at] ==> w in ws;
    HardOnDisk(d, ws[..at], Max(n.currentTerm, m.term));
  }

  lemma NodeFolds(c: ClusterState, s: State, step: Step, s': State)
    requires Rel(c, s) && Inv(s) && FoldInv(c, s) && CanStep(c, step) && FoldGuarded(c, step)
    requires Inv(s') && Rel(Take(c, step), s') && Continues(s, s', step.v) && StepKeeps(c, s, step, s')
    ensures Folded(Take(c, step).nodes[step.v], s'.servers[step.v].log)
  {
    var v, call := step.v, step.call;
    var n, d := c.nodes[v], c.disks[v];
    NodeReady(c, s, v);
    assert Folded(c.nodes[v], s.servers[v].log);
    assert call.Receive? ==> MsgRel(s, call.m) && FoldedMsg(s, call.m);
    assert NodeRel(s', v, Take(c, step).nodes[v]);
    match step {
      case Act(_, _) => ActFolds(s, s', v, n, d, call);
      case Crash(_, _, at) =>
        if call.Receive? && call.m.SnapReq? { SnapshotHard(n, d, call.m, at); }
        CrashFolds(s, s', v, n, d, call, at);
    }
  }

  /** A snapshot a leader sends is its own, and so a fold of its reign's log. */
  lemma SentFolds(s: State, s': State, v: Id, n: NodeState, d: Disk, call: Call, m: Msg)
    requires Ready(s, v, n, d) && CanCall(n, call) && Folded(n, s.servers[v].log) && Continues(s, s', v)
    requires m in Handle(n, call).sends
    ensures FoldedMsg(s', m)
  {
    match call
    case ShipSnapshot(peer) =>
      LeaderLog(s, v, n);
      assert ReignEvolves(s, s', v, n.currentTerm);
      SameSlice(s.servers[v].log, s'.reigns[n.currentTerm].log, n.snapshotIndex, |s.servers[v].log|);
    case Receive(q, calm) => if !q.SnapReq? { MessageUntouched(n, q, calm); }
    case _ =>
  }

  lemma AnswersTruthful(s: State, v: Id, n: NodeState, d: Disk, call: Call)
    requires Ready(s, v, n, d) && CanCall(n, call) && Folded(n, s.servers[v].log)
    ensures forall a :: a in Handle(n, call).answers ==> Truthful(s, a)
  {
    match call
    case ApplyCommitted => ApplyReadyFolds(s, v, n);
    case Receive(m, calm) => if !m.SnapReq? { MessageUntouched(n, m, calm); }
    case _ =>
  }

  /** The fold invariant holds after every guarded step. */
  lemma FoldStep(c: ClusterState, s: State, step: Step, s': State)
    requires Rel(c, s) && Inv(s) && FoldInv(c, s) && CanStep(c, step) && FoldGuarded(c, step)
    requires Inv(s') && Rel(Take(c, step), s') && Continues(s, s', step.v) && StepKeeps(c, s, step, s')
    ensures FoldInv(Take(c, step), s')
  {
    var c' := Take(c, step);
    var v := step.v;
    NodeReady(c, s, v);
    NodeFolds(c, s, step, s');
    assert Folded(c.nodes[v], s.servers[v].log);
    forall u | u in c'.nodes && u in s'.servers ensures Folded(c'.nodes[u], s'.servers[u].log) {
      if u != v {
        assert Folded(c.nodes[u], s.servers[u].log);
        assert ServerStands(s, s', u);
      }
    }
    FoldStepMsgs(c, s, step, s');
  }

  lemma FoldStepMsgs(c: ClusterState, s: State, step: Step, s': State)
    requires Rel(c, s) && Inv(s) && FoldInv(c, s) && CanStep(c, step) && Continues(s, s', step.v)
    requires Ready(s, step.v, c.nodes[step.v], c.disks[step.v]) && Folded(c.nodes[step.v], s.servers[step.v].log)
    ensures forall m {:trigger FoldedMsg(s', m)} :: m in Take(c, step).msgs ==> FoldedMsg(s', m)
    ensures forall a {:trigger Truthful(s', a)} :: a in Take(c, step).answers ==> Truthful(s', a)
  {
    var v := step.v;
    var c' := Take(c, step);
    forall m | m in c'.msgs ensures FoldedMsg(s', m) {
      if m in c.msgs {
        assert MsgRel(s, m) && FoldedMsg(s, m);
        FoldedMsgStands(s, s', v, m);
      } else {
        SentFolds(s, s', v, c.nodes[v], c.disks[v], step.call, m);
      }
    }
    AnswersTruthful(s, v, c.nodes[v], c.disks[v], step.call);
    forall a | a in c'.answers ensures Truthful(s', a) {
      if a in c.answers { assert Truthful(s, a); }
      TruthfulStands(s, s', v, a);
    }
  }

  lemma StartFolds(c: ClusterState)
    requires Start(c)
    ensures FoldInv(c, Init(c.nodes.Keys))
  {
    var s := Init(c.nodes.Keys);
    forall v | v in c.nodes && v in s.servers ensures Folded(c.nodes[v], s.servers[v].log) {
      LoadFolds(c.nodes[v].cfg, EMPTY_DISK, []);
    }
  }
}
