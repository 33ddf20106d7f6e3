/** Every guarded step of a cluster, crashes included, is matched by the consensus core. */
module Simulation {
  import opened JukeboxTypes
  import opened RaftLog
  import opened Storage
  import opened Node
  import opened Cluster
  import opened Consensus
  import opened ConsensusSteps
  import opened ConsensusLogs
  import opened ConsensusSafety
  import opened Relation
  import opened Compaction
  import opened SimAppend
  import opened SimElect
  import opened SimLeader
  import opened SimSnapshot

  ghost predicate CallOk(s: State, v: Id, n: NodeState, d: Disk, call: Call, j: nat) {
    && Ready(s, v, n, d) && CanCall(n, call) && !call.ShipSnapshot? && j <= |Handle(n, call).writes|
    && (call.Receive? ==> MsgRel(s, call.m))
    && (call.Receive? && call.m.AppendReq? ==> CommitSafe(s, call.m, n, OnAppend(n, call.m).node))
    && (j < |Handle(n, call).writes| ==> !TornInstall(n, call, j))
  }

  lemma MessagePoint(s: State, v: Id, n: NodeState, d: Disk, call: Call, j: nat) returns (s': State, n': NodeState)
    requires CallOk(s, v, n, d, call, j) && call.Receive?
    ensures Reached(s, v, d, Handle(n, call), j, s', n')
  {
    var m := call.m;
    match m {
      case VoteReq(_, _, _, _, _, _) => s', n' := VotePoint(s, v, n, d, m, call.calm, j);
      case VoteReply(_, _, _, _, _, _) => s', n' := VoteReplyPoint(s, v, n, d, m, j);
      case AppendReq(_, _, _, _, _, _, _, _) => s', n' := AppendPoint(s, v, n, d, m, j);
      case AppendReply(_, _, _, _, _, _, _, _, _, _) => s', n' := AppendReplyPoint(s, v, n, d, m, j);
      case SnapReq(_, _, _, _, _, _) => s', n' := SnapPoint(s, v, n, d, m, j);
      case SnapReply(_, _, _, _, _) => s', n' := SnapReplyPoint(s, v, n, d, m, j);
    }
  }

  /** A locked section other than sending a snapshot, cut short after any number of its storage calls. */
  lemma CallPoint(s: State, v: Id, n: NodeState, d: Disk, call: Call, j: nat) returns (s': State, n': NodeState)
    requires CallOk(s, v, n, d, call, j)
    ensures Reached(s, v, d, Handle(n, call), j, s', n')
  {
    match call {
      case Timeout => s' := TimeoutSim(s, v, n, d); n' := BeginCampaign(n);
      case Elect(bid) => s', n' := ElectPoint(s, v, n, d, bid, j);
      case Receive(m, calm) => s', n' := MessagePoint(s, v, n, d, call, j);
      case Submit(payload, wait) => s', n' := ProposePoint(s, v, n, d, payload, wait, j);
      case Replicate(peer, rid) => ReplicateRel(s, v, n, peer, rid); SendPoint(s, v, n, d, ReplicateTo(n, peer, rid)); s', n' := s, n;
      case Confirm(peer, rid, commit) => ConfirmRel(s, v, n, peer, rid, commit); SendPoint(s, v, n, d, ConfirmTo(n, peer, rid, commit)); s', n' := s, n;
      case ApplyCommitted => n' := ApplyPoint(s, v, n, d, j); s' := s;
    }
  }

  /** Reloading whatever storage stands for is a restart. */
  lemma ReloadSim(s: State, v: Id, n: NodeState, d: Disk) returns (s': State)
    requires Inv(s) && NodeRel(s, v, n) && DiskRel(n, d, s.servers[v].log)
    ensures Inv(s') && Evolves(s, s', v) && NodeRel(s', v, Load(n.cfg, d)) && DiskRel(Load(n.cfg, d), d, s'.servers[v].log)
    ensures s'.reigns == s.reigns
  {
    var n' := Load(n.cfg, d);
    LoadTransparent(n.cfg, n, d, s.servers[v].log);
    s' := Next(s, Restart(v, n.snapshotIndex));
    RestartInv(s, v, n.snapshotIndex);
    NextEvolves(s, Restart(v, n.snapshotIndex));
  }

  /** Entries applied in a step are certified where it starts. */
  lemma StepApplied(s: State, v: Id, n: NodeState, d: Disk, call: Call)
    requires Ready(s, v, n, d) && CanCall(n, call)
    ensures AppliedRel((set e | e in Handle(n, call).applied), s)
  {
    match call
    case ApplyCommitted => AppliedCertified(s, v, n, d);
    case Receive(m, calm) => if !m.SnapReq? { MessageUntouched(n, m, calm); }
    case _ =>
  }

  /** Machine, snapshot and configuration untouched, nothing applied, nothing answered. */
  predicate SameMachine(n: NodeState, o: Out) {
    && o.node.cfg == n.cfg && o.node.lastApplied == n.lastApplied && o.node.machine == n.machine
    && o.node.snapshotIndex == n.snapshotIndex && o.node.snapshotData == n.snapshotData
    && o.applied == [] && o.answers == {}
  }

  predicate Untouched(n: NodeState, o: Out) {
    SameMachine(n, o) && forall m :: m in o.sends ==> !m.SnapReq?
  }

  lemma AppendUntouched(n: NodeState, m: Msg)
    requires m.AppendReq? && n.entries != []
    ensures Untouched(n, OnAppend(n, m))
  {
  }

  lemma RepliesUntouched(n: NodeState, m: Msg)
    requires n.entries != []
    ensures m.VoteReply? ==> Untouched(n, OnVoteReply(n, m))
    ensures m.AppendReply? ==> Untouched(n, OnAppendReply(n, m))
    ensures m.SnapReply? ==> Untouched(n, OnSnapReply(n, m))
  {
  }

  lemma MessageUntouched(n: NodeState, m: Msg, calm: bool)
    requires n.entries != [] && (m.SnapReq? ==> m.term < n.currentTerm || m.lastIndex <= n.snapshotIndex)
    ensures Untouched(n, OnMessage(n, m, calm))
  {
    if m.AppendReq? { AppendUntouched(n, m); } else { RepliesUntouched(n, m); }
  }

  lemma AppliedStands(s: State, s': State, v: Id, es: set<Entry>)
    requires AppliedRel(es, s) && Continues(s, s', v)
    ensures AppliedRel(es, s')
  {
    AppliedFrame({}, s, s', v, {});
    forall e | e in es ensures EntryCertified(s', e) { assert EntryCertified(s, e); EntryFrame(s, s', v, e); }
  }

  lemma NodeReady(c: ClusterState, s: State, v: Id)
    requires Rel(c, s) && Inv(s) && v in c.nodes
    ensures Ready(s, v, c.nodes[v], c.disks[v])
  {
    assert NodeRel(s, v, c.nodes[v]) && DiskAt(c.nodes, c.disks, s, v);
  }

  /** What a step keeps at the acting node: all it committed and acknowledged, or after the torn crash its snapshot. */
  ghost predicate StepKeeps(c: ClusterState, s: State, step: Step, s': State)
    requires CanStep(c, step) && step.v in s.servers && step.v in s'.servers
  {
    if Torn(c, step) then
      && Agree(s.servers[step.v].log, s'.servers[step.v].log, c.nodes[step.v].snapshotIndex)
      && Take(c, step).disks[step.v].snap == c.disks[step.v].snap && SentStands(s, s')
    else if step.Act? && step.call.ShipSnapshot? then Shipped(s, s', step.v, c.nodes[step.v].snapshotIndex)
    else Evolves(s, s', step.v)
  }

  /** The guard is what the core asks of a follower's commit index. */
  lemma GuardIsSafe(c: ClusterState, s: State, step: Step)
    requires Rel(c, s) && Inv(s) && CanStep(c, step) && Guarded(c, step) && step.call.Receive? && step.call.m.AppendReq?
    ensures CommitSafe(s, step.call.m, c.nodes[step.v], OnAppend(c.nodes[step.v], step.call.m).node)
  {
    var n, m := c.nodes[step.v], step.call.m;
    if !CommitCapped(n, m) {
      var n' := OnAppend(n, m).node;
      var u :| u in c.nodes && c.nodes[u].role == Leader && c.nodes[u].currentTerm == m.term
        && TermOf(c.nodes[u], n'.commitIndex).Some? && TermOf(c.nodes[u], n'.commitIndex) == TermOf(n', n'.commitIndex);
      assert NodeRel(s, u, c.nodes[u]);
      LeaderLog(s, u, c.nodes[u]);
      TermTransparent(c.nodes[u].entries, c.nodes[u].snapshotIndex, s.servers[u].log, n'.commitIndex);
    }
  }

  /** The simulation step. */
  lemma StepSim(c: ClusterState, s: State, step: Step) returns (s': State)
    requires Rel(c, s) && Inv(s) && CanStep(c, step) && Guarded(c, step)
    ensures Inv(s') && Rel(Take(c, step), s') && Continues(s, s', step.v) && StepKeeps(c, s, step, s')
  {
    var v, call := step.v, step.call;
    var n, d := c.nodes[v], c.disks[v];
    NodeReady(c, s, v);
    StepApplied(s, v, n, d, call);
    assert call.Receive? ==> MsgRel(s, call.m);
    if call.Receive? && call.m.AppendReq? { GuardIsSafe(c, s, step); }
    if step.Act? {
      s' := ActSim(c, s, step);
    } else if Torn(c, step) {
      s' := TornCrashSim(c, s, step);
    } else {
      s' := CrashSim(c, s, step);
    }
  }

  ghost predicate StepReady(c: ClusterState, s: State, step: Step) {
    && Rel(c, s) && Inv(s) && CanStep(c, step)
    && Ready(s, step.v, c.nodes[step.v], c.disks[step.v]) && (step.call.Receive? ==> MsgRel(s, step.call.m))
    && (step.call.Receive? && step.call.m.AppendReq? ==> CommitSafe(s, step.call.m, c.nodes[step.v], OnAppend(c.nodes[step.v], step.call.m).node))
    && AppliedRel((set e | e in Handle(c.nodes[step.v], step.call).applied), s)
  }

  lemma ActSim(c: ClusterState, s: State, step: Step) returns (s': State)
    requires StepReady(c, s, step) && step.Act?
    ensures Inv(s') && Rel(Take(c, step), s') && StepKeeps(c, s, step, s')
  {
    var v, call := step.v, step.call;
    var n, d := c.nodes[v], c.disks[v];
    var o := Handle(n, call);
    var es := set e | e in o.applied;
    if call.ShipSnapshot? {
      s' := ShipSim(s, v, n, d, call.peer);
    } else {
      var n';
      s', n' := CallPoint(s, v, n, d, call, |o.writes|);
    }
    assert o.writes[..|o.writes|] == o.writes;
    AppliedStands(s, s', v, es);
    Reassemble(c, s, s', v, o.node, Replay(d, o.writes), o.sends, es, c.answers + o.answers);
  }

  lemma CrashSim(c: ClusterState, s: State, step: Step) returns (s': State)
    requires StepReady(c, s, step) && step.Crash? && !Torn(c, step)
    ensures Inv(s') && Rel(Take(c, step), s') && Evolves(s, s', step.v)
  {
    var v := step.v;
    s' := CrashPoint(s, v, c.nodes[v], c.disks[v], step.call, step.at);
    CrashAssembles(c, s, step, s');
  }

  lemma CrashPoint(s: State, v: Id, n: NodeState, d: Disk, call: Call, at: nat) returns (s': State)
    requires call.ShipSnapshot? ==> Ready(s, v, n, d) && CanCall(n, call) && at == 0
    requires !call.ShipSnapshot? ==> CallOk(s, v, n, d, call, at)
    ensures var d' := Replay(d, Handle(n, call).writes[..at]);
      && Inv(s') && Evolves(s, s', v) && NodeRel(s', v, Load(n.cfg, d')) && DiskRel(Load(n.cfg, d'), d', s'.servers[v].log)
  {
    if call.ShipSnapshot? {
      s' := ReloadSim(s, v, n, d);
    } else {
      var s1, n1 := CallPoint(s, v, n, d, call, at);
      HandleKeepsConfig(n, call);
      s' := ReloadSim(s1, v, n1, Replay(d, Handle(n, call).writes[..at]));
      EvolvesTrans(s, s1, s', v);
    }
  }

  lemma TornCrashSim(c: ClusterState, s: State, step: Step) returns (s': State)
    requires StepReady(c, s, step) && Torn(c, step)
    ensures Inv(s') && Rel(Take(c, step), s') && Continues(s, s', step.v) && StepKeeps(c, s, step, s')
  {
    var v := step.v;
    s' := TornSim(s, v, c.nodes[v], c.disks[v], step.call.m);
    forall t: nat ensures SentAlike(s, s', t) { }
    CrashAssembles(c, s, step, s');
  }

  /** A crashed node put back into the cluster. */
  lemma CrashAssembles(c: ClusterState, s: State, step: Step, s': State)
    requires StepReady(c, s, step) && step.Crash? && Continues(s, s', step.v)
    requires var d' := Replay(c.disks[step.v], Handle(c.nodes[step.v], step.call).writes[..step.at]);
      var r := Load(c.nodes[step.v].cfg, d'); NodeRel(s', step.v, r) && DiskRel(r, d', s'.servers[step.v].log)
    ensures Rel(Take(c, step), s')
  {
    var v := step.v;
    var n := c.nodes[v];
    var o := Handle(n, step.call);
    var d' := Replay(c.disks[v], o.writes[..step.at]);
    var es := set e | e in o.applied;
    AppliedStands(s, s', v, es);
    Reassemble(c, s, s', v, Load(n.cfg, d'), d', {}, es, c.answers + o.answers);
  }

  lemma HandleKeepsConfig(n: NodeState, call: Call)
    requires CanCall(n, call)
    ensures Handle(n, call).node.cfg == n.cfg
  {
    if call.Receive? && !call.m.SnapReq? { MessageUntouched(n, call.m, call.calm); }
  }

  /** A starting cluster stands for the initial state of the core. */
  lemma StartSim(c: ClusterState)
    requires Start(c)
    ensures Rel(c, Init(c.nodes.Keys)) && Inv(Init(c.nodes.Keys))
  {
    var s := Init(c.nodes.Keys);
    InitInv(c.nodes.Keys);
    forall v | v in c.nodes ensures NodeRel(s, v, c.nodes[v]) && DiskAt(c.nodes, c.disks, s, v) { StartPlace(c, v); }
  }

  lemma StartPlace(c: ClusterState, v: Id)
    requires Start(c) && v in c.nodes
    ensures NodeRel(Init(c.nodes.Keys), v, c.nodes[v]) && DiskAt(c.nodes, c.disks, Init(c.nodes.Keys), v)
  {
    StartNode(c.nodes.Keys, v, c.nodes[v]);
  }

  lemma StartNode(ids: set<Id>, v: Id, n: NodeState)
    requires v in ids && GoodConfig(ids, v, n.cfg) && n == Load(n.cfg, EMPTY_DISK)
    ensures NodeRel(Init(ids), v, n) && DiskRel(n, EMPTY_DISK, Init(ids).servers[v].log)
  {
    forall i: nat ensures StoredAt(map[], 0, [], i) { }
    var s := Init(ids);
    assert s.servers.Keys == ids && s.servers[v] == Server(0, [], 0, 0, {});
    ListingIs(map[], 0);
  }
}
