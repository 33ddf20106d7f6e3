/**
 A whole cluster: nodes with their storage, and every message ever sent. Messages are
 never removed, so one may be delivered any number of times, in any order, or not at all.
 A crash may strike between any two storage calls of a locked section.
 */
module Cluster {
  import opened JukeboxTypes
  import opened RaftLog
  import opened Storage
  import opened Node

  datatype ClusterState = ClusterState(
    nodes: map<Id, NodeState>,
    disks: map<Id, Disk>,
    msgs: set<Msg>,
    applied: set<Entry>,     // every entry any node ever handed to its state machine
    answers: set<Answer>)    // every result any Submit ever returned

  datatype Step =
    | Act(v: Id, call: Call)
    | Crash(v: Id, call: Call, at: nat)

  predicate CanStep(c: ClusterState, step: Step) {
    && step.v in c.nodes && step.v in c.disks
    && CanCall(c.nodes[step.v], step.call)
    && (step.call.Receive? ==> step.call.m in c.msgs)
    && (step.Crash? ==> step.at <= |Handle(c.nodes[step.v], step.call).writes|)
  }

  /** A crash loses memory and unsent messages; storage keeps the calls already made. */
  ghost function Take(c: ClusterState, step: Step): ClusterState
    requires CanStep(c, step)
  {
    var n := c.nodes[step.v];
    var o := Handle(n, step.call);
    var applied := c.applied + set e | e in o.applied;
    match step
    case Act(v, _) =>
      ClusterState(c.nodes[v := o.node], c.disks[v := Replay(c.disks[v], o.writes)], c.msgs + o.sends, applied, c.answers + o.answers)
    case Crash(v, _, at) =>
      var d := Replay(c.disks[v], o.writes[..at]);
      ClusterState(c.nodes[v := Load(n.cfg, d)], c.disks[v := d], c.msgs, applied, c.answers + o.answers)
  }

  // ---- The steps the theorems are about ----

  /** Figure 2's cap: a request moves the commit index no further than the entries it vouches for. */
  predicate CommitCapped(n: NodeState, m: Msg)
    requires m.AppendReq? && n.entries != []
  {
    var commit := OnAppend(n, m).node.commitIndex;
    commit <= n.commitIndex || commit <= m.prevIndex + |m.entries|
  }

  /** The request's leader still leads and has, where the follower's commit index goes, an entry of the same term. */
  predicate CommitVouched(c: ClusterState, n: NodeState, m: Msg)
    requires m.AppendReq? && n.entries != []
  {
    var n' := OnAppend(n, m).node;
    exists u :: u in c.nodes && c.nodes[u].role == Leader && c.nodes[u].currentTerm == m.term
                && TermOf(c.nodes[u], n'.commitIndex).Some? && TermOf(c.nodes[u], n'.commitIndex) == TermOf(n', n'.commitIndex)
  }

  /**
   The point inside InstallSnapshot where the old suffix is gone from storage and the
   new snapshot is not yet there, with a suffix to lose.
   */
  predicate TornInstall(n: NodeState, call: Call, at: nat)
    requires n.entries != []
  {
    call.Receive? && call.m.SnapReq? && call.m.term >= n.currentTerm && call.m.lastIndex > n.snapshotIndex &&
    !KeepsSuffix(n, call.m) && at == |ObserveWrites(n, call.m.term)| + 1 && LastIndex(n) > n.snapshotIndex
  }

  predicate Torn(c: ClusterState, step: Step)
    requires CanStep(c, step)
  {
    step.Crash? && TornInstall(c.nodes[step.v], step.call, step.at)
  }

  predicate Guarded(c: ClusterState, step: Step)
    requires CanStep(c, step)
  {
    var n := c.nodes[step.v];
    step.call.Receive? && step.call.m.AppendReq? ==> CommitCapped(n, step.call.m) || CommitVouched(c, n, step.call.m)
  }

  // ---- Starting states ----

  ghost predicate GoodConfig(ids: set<Id>, v: Id, cfg: Config) {
    && cfg.id == v
    && (forall i, j :: 0 <= i < j < |cfg.peers| ==> cfg.peers[i] != cfg.peers[j])
    && (forall p :: p in cfg.peers <==> p in ids && p != v)
    && cfg.quorum == |ids| / 2 + 1
  }

  ghost predicate Start(c: ClusterState) {
    && "" !in c.nodes && c.disks.Keys == c.nodes.Keys
    && (forall v :: v in c.nodes ==>
          GoodConfig(c.nodes.Keys, v, c.nodes[v].cfg) && c.disks[v] == EMPTY_DISK && c.nodes[v] == Load(c.nodes[v].cfg, EMPTY_DISK))
    && c.msgs == {} && c.applied == {} && c.answers == {}
  }

  ghost predicate FreeStep(run: seq<ClusterState>, steps: seq<Step>, i: nat)
    requires |run| == |steps| + 1 && i < |steps|
  {
    CanStep(run[i], steps[i]) && run[i + 1] == Take(run[i], steps[i])
  }

  /** A free run: each state follows from the one before by any step the nodes can take. */
  ghost predicate IsFreeRun(run: seq<ClusterState>, steps: seq<Step>) {
    && |run| == |steps| + 1 && Start(run[0])
    && (forall i: nat {:trigger FreeStep(run, steps, i)} :: i < |steps| ==> FreeStep(run, steps, i))
  }

  ghost predicate RunStep(run: seq<ClusterState>, steps: seq<Step>, i: nat)
    requires |run| == |steps| + 1 && i < |steps|
  {
    CanStep(run[i], steps[i]) && Guarded(run[i], steps[i]) && run[i + 1] == Take(run[i], steps[i])
  }

  /** A run: each state follows from the one before by a guarded step. */
  ghost predicate IsRun(run: seq<ClusterState>, steps: seq<Step>) {
    && |run| == |steps| + 1 && Start(run[0])
    && (forall i: nat {:trigger RunStep(run, steps, i)} :: i < |steps| ==> RunStep(run, steps, i))
  }
}
