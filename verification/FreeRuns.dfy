/**
 What holds of every run of the code's sections, with no assumption on which requests are handled or where
 crashes strike: election safety, kept votes, contiguous logs and storage that mirrors memory.
 */
module FreeRuns {
  import opened JukeboxTypes
  import opened RaftLog
  import opened Storage
  import opened Node
  import opened Cluster
  import opened Relation
  import opened Mirror

  // ---- Votes as messages show them ----

  /** The message shows that v voted for w in term t: a grant, or v's own request for votes. */
  predicate ShowsVote(m: Msg, v: Id, t: nat, w: Id) {
    || (m.VoteReply? && m.granted && !m.preVote && m.src == v && m.reqTerm == t && m.dst == w)
    || (m.VoteReq? && !m.preVote && m.src == v && m.term == t && w == v)
  }

  ghost predicate Voted(msgs: set<Msg>, v: Id, t: nat, w: Id) {
    exists m {:trigger ShowsVote(m, v, t, w)} :: m in msgs && ShowsVote(m, v, t, w)
  }

  /** A vote shown is kept: its voter has moved on or still has it recorded. */
  predicate Bound(n: NodeState, t: nat, w: Id) {
    n.currentTerm > t || (n.currentTerm == t && n.votedFor == w)
  }

  ghost predicate VoteBinds(c: ClusterState, v: Id, t: nat, w: Id) {
    Voted(c.msgs, v, t, w) ==> v in c.nodes && w != "" && Bound(c.nodes[v], t, w)
  }

  ghost predicate OneVote(msgs: set<Msg>, v: Id, t: nat, w: Id, w': Id) {
    Voted(msgs, v, t, w) && Voted(msgs, v, t, w') ==> w == w'
  }

  /** All of a set have shown a vote for v. */
  ghost predicate Elects(c: ClusterState, voters: set<Id>, t: nat, v: Id) {
    voters <= c.nodes.Keys && forall u {:trigger Voted(c.msgs, u, t, v)} :: u in voters ==> Voted(c.msgs, u, t, v)
  }

  ghost predicate HasQuorum(c: ClusterState, t: nat, v: Id) {
    exists voters {:trigger Elects(c, voters, t, v)} :: |voters| >= |c.nodes.Keys| / 2 + 1 && Elects(c, voters, t, v)
  }

  /** In a cluster of more than one, a tally holds shown votes and a leader a quorum of them. */
  ghost predicate Elected(c: ClusterState, v: Id)
    requires v in c.nodes
  {
    var n := c.nodes[v];
    |c.nodes.Keys| > 1 ==>
      && (n.ballot.Ballot? ==> Elects(c, n.ballot.granted, n.ballot.term, v))
      && (n.role == Leader ==> HasQuorum(c, n.currentTerm, v))
  }

  ghost predicate Placed(c: ClusterState, v: Id) {
    v in c.nodes && v in c.disks ==> GoodConfig(c.nodes.Keys, v, c.nodes[v].cfg) && Mirrors(c.nodes[v], c.disks[v]) && Elected(c, v)
  }

  ghost predicate KnownMsg(c: ClusterState, m: Msg) {
    m.src in c.nodes && GoodRequest(m)
  }

  ghost predicate FreeInv(c: ClusterState) {
    && "" !in c.nodes && c.disks.Keys == c.nodes.Keys
    && (forall v {:trigger Placed(c, v)} :: Placed(c, v))
    && (forall m {:trigger KnownMsg(c, m)} :: m in c.msgs ==> KnownMsg(c, m))
    && (forall v, t: nat, w {:trigger VoteBinds(c, v, t, w)} :: VoteBinds(c, v, t, w))
    && (forall v, t: nat, w, w' {:trigger OneVote(c.msgs, v, t, w, w')} :: OneVote(c.msgs, v, t, w, w'))
  }

  // ---- What one section sends ----

  /** A section's messages come from its node, its requests are contiguous, and a vote they show is the one it now has. */
  predicate SendsWell(n: NodeState, n': NodeState, m: Msg) {
    && m.src == n.cfg.id
    && (m.VoteReply? && m.granted && !m.preVote ==> n'.currentTerm == m.reqTerm && n'.votedFor == m.dst)
    && (m.VoteReq? && !m.preVote ==> n'.currentTerm == m.term && n'.votedFor == n.cfg.id)
  }

  lemma SectionSends(n: NodeState, call: Call, m: Msg)
    requires CanCall(n, call) && m in Handle(n, call).sends
    ensures SendsWell(n, Handle(n, call).node, m) && GoodRequest(m)
    ensures m.VoteReply? ==> call.Receive? && call.m.VoteReq? && m.dst == call.m.src
  {
    match call {
      case Receive(q, calm) => MessageSends(n, q, calm, m);
      case Replicate(peer, rid) => ReplicateSlots(n, peer, rid);
      case _ =>
    }
  }

  lemma ReplicateSlots(n: NodeState, peer: Id, rid: nat)
    requires Contiguous(n) && CanReplicate(n, peer)
    ensures GoodRequest(ReplicateTo(n, peer, rid))
  {
  }

  lemma MessageSends(n: NodeState, q: Msg, calm: bool, m: Msg)
    requires n.entries != [] && m in OnMessage(n, q, calm).sends
    ensures SendsWell(n, OnMessage(n, q, calm).node, m) && GoodRequest(m)
    ensures m.VoteReply? ==> q.VoteReq? && m.dst == q.src
  {
    if q.VoteReq? { VoteSends(n, q, calm, m); } else if q.AppendReq? { AppendSends(n, q, m); } else { OthersSend(n, q, calm, m); }
  }

  lemma VoteSends(n: NodeState, q: Msg, calm: bool, m: Msg)
    requires n.entries != [] && q.VoteReq? && m in OnVote(n, q, calm).sends
    ensures SendsWell(n, OnVote(n, q, calm).node, m) && m.VoteReply? && m.dst == q.src
  {
  }

  lemma AppendSends(n: NodeState, q: Msg, m: Msg)
    requires n.entries != [] && q.AppendReq? && m in OnAppend(n, q).sends
    ensures m.AppendReply? && m.src == n.cfg.id
  {
  }

  lemma OthersSend(n: NodeState, q: Msg, calm: bool, m: Msg)
    requires n.entries != [] && !q.VoteReq? && !q.AppendReq? && m in OnMessage(n, q, calm).sends
    ensures m.SnapReply? && m.src == n.cfg.id
  {
  }

  // ---- Who becomes leader ----

  /** A leader that was none before comes from a tally with a quorum, or is alone. */
  lemma NewLeader(n: NodeState, call: Call)
    requires CanCall(n, call) && Handle(n, call).node.role == Leader
    ensures var n' := Handle(n, call).node;
      || (n.role == Leader && n'.currentTerm == n.currentTerm)
      || n.cfg.quorum <= 1
      || (n'.ballot.Ballot? && n'.ballot.term == n'.currentTerm && |n'.ballot.granted| >= n.cfg.quorum)
  {
    match call {
      case Receive(q, calm) => NewLeaderByMessage(n, q, calm);
      case _ =>
    }
  }

  lemma NewLeaderByMessage(n: NodeState, q: Msg, calm: bool)
    requires n.entries != [] && OnMessage(n, q, calm).node.role == Leader
    ensures var n' := OnMessage(n, q, calm).node;
      || (n.role == Leader && n'.currentTerm == n.currentTerm)
      || (n'.ballot.Ballot? && n'.ballot.term == n'.currentTerm && |n'.ballot.granted| >= n.cfg.quorum)
  {
  }

  /** A tally changes by starting anew with the node's own vote, or by one granted reply of its term. */
  lemma NewBallot(n: NodeState, call: Call)
    requires CanCall(n, call) && Handle(n, call).node.ballot.Ballot?
    ensures var n' := Handle(n, call).node;
      || (n.ballot.Ballot? && n'.ballot.term == n.ballot.term && n'.ballot.granted == n.ballot.granted)
      || (call.Elect? && n.cfg.quorum > 1 && n'.ballot.granted == {n.cfg.id} && n'.ballot.term == n'.currentTerm
          && forall p :: p in n.cfg.peers ==>
               VoteReq(n.cfg.id, p, n'.currentTerm, call.bid.lastIndex, call.bid.lastTerm, false) in Handle(n, call).sends)
      || (call.Receive? && call.m.VoteReply? && call.m.granted && !call.m.preVote && n.ballot.Ballot?
          && n'.ballot.term == n.ballot.term == call.m.reqTerm && n'.ballot.granted == n.ballot.granted + {call.m.src})
  {
    match call {
      case Receive(q, calm) => NewBallotByMessage(n, q, calm);
      case _ =>
    }
  }

  lemma NewBallotByMessage(n: NodeState, q: Msg, calm: bool)
    requires n.entries != [] && OnMessage(n, q, calm).node.ballot.Ballot?
    ensures var n' := OnMessage(n, q, calm).node;
      || (n.ballot.Ballot? && n'.ballot.term == n.ballot.term && n'.ballot.granted == n.ballot.granted)
      || (q.VoteReply? && q.granted && !q.preVote && n.ballot.Ballot?
          && n'.ballot.term == n.ballot.term == q.reqTerm && n'.ballot.granted == n.ballot.granted + {q.src})
  {
    if q.VoteReply? { NewBallotByReply(n, q); } else { BallotStays(n, q, calm); }
  }

  lemma NewBallotByReply(n: NodeState, q: Msg)
    requires n.entries != [] && q.VoteReply? && OnVoteReply(n, q).node.ballot.Ballot?
    ensures var n' := OnVoteReply(n, q).node;
      || (n.ballot.Ballot? && n'.ballot.term == n.ballot.term && n'.ballot.granted == n.ballot.granted)
      || (q.granted && !q.preVote && n.ballot.Ballot?
          && n'.ballot.term == n.ballot.term == q.reqTerm && n'.ballot.granted == n.ballot.granted + {q.src})
  {
  }

  lemma BallotStays(n: NodeState, q: Msg, calm: bool)
    requires n.entries != [] && !q.VoteReply?
    ensures OnMessage(n, q, calm).node.ballot == n.ballot
  {
  }

  // ---- One step ----

  lemma ActorMirrors(c: ClusterState, step: Step)
    requires FreeInv(c) && CanStep(c, step)
    ensures var n, n' := c.nodes[step.v], Take(c, step).nodes[step.v];
      Mirrors(n', Take(c, step).disks[step.v]) && HardStep(HardOf(n), HardOf(n')) && n'.cfg == n.cfg
  {
    var v, call := step.v, step.call;
    var n, d := c.nodes[v], c.disks[v];
    var ws := Handle(n, call).writes;
    assert Placed(c, v) && (call.Receive? ==> KnownMsg(c, call.m));
    var j := if step.Act? then |ws| else step.at;
    var n1 := AnyPoint(n, d, call, j);
    if step.Act? { assert ws[..j] == ws; } else { MirrorsReload(n1, Replay(d, ws[..j])); }
  }

  lemma VotedGrows(msgs: set<Msg>, msgs': set<Msg>, v: Id, t: nat, w: Id)
    requires Voted(msgs, v, t, w) && msgs <= msgs'
    ensures Voted(msgs', v, t, w)
  {
    var m :| m in msgs && ShowsVote(m, v, t, w);
    assert m in msgs' && ShowsVote(m, v, t, w);
  }

  /** A vote newly shown is the acting node's, and is what it has recorded. */
  lemma NewVote(c: ClusterState, step: Step, u: Id, t: nat, w: Id)
    requires FreeInv(c) && CanStep(c, step) && Voted(Take(c, step).msgs, u, t, w) && !Voted(c.msgs, u, t, w)
    ensures u == step.v && w != "" && var n' := Take(c, step).nodes[u]; n'.currentTerm == t && n'.votedFor == w
  {
    var v, call := step.v, step.call;
    var m :| m in Take(c, step).msgs && ShowsVote(m, u, t, w);
    assert m in c.msgs ==> Voted(c.msgs, u, t, w);
    assert Placed(c, v) && (call.Receive? ==> KnownMsg(c, call.m));
    SectionSends(c.nodes[v], call, m);
  }

  lemma VotesBind(c: ClusterState, step: Step, u: Id, t: nat, w: Id)
    requires FreeInv(c) && CanStep(c, step)
    ensures VoteBinds(Take(c, step), u, t, w)
  {
    if Voted(Take(c, step).msgs, u, t, w) {
      if Voted(c.msgs, u, t, w) {
        assert VoteBinds(c, u, t, w);
        if u == step.v { ActorMirrors(c, step); }
      } else {
        NewVote(c, step, u, t, w);
      }
    }
  }

  lemma VotesAreOne(c: ClusterState, step: Step, u: Id, t: nat, w: Id, w': Id)
    requires FreeInv(c) && CanStep(c, step)
    ensures OneVote(Take(c, step).msgs, u, t, w, w')
  {
    var msgs' := Take(c, step).msgs;
    if Voted(msgs', u, t, w) && Voted(msgs', u, t, w') {
      assert OneVote(c.msgs, u, t, w, w');
      VotesBind(c, step, u, t, w);
      VotesBind(c, step, u, t, w');
      if !Voted(c.msgs, u, t, w) { NewVote(c, step, u, t, w); }
      else if !Voted(c.msgs, u, t, w') { NewVote(c, step, u, t, w'); }
    }
  }

  lemma ElectsGrows(c: ClusterState, c': ClusterState, voters: set<Id>, t: nat, v: Id)
    requires Elects(c, voters, t, v) && c.msgs <= c'.msgs && c'.nodes.Keys == c.nodes.Keys
    ensures Elects(c', voters, t, v)
  {
    forall u | u in voters ensures Voted(c'.msgs, u, t, v) {
      assert Voted(c.msgs, u, t, v);
      VotedGrows(c.msgs, c'.msgs, u, t, v);
    }
  }

  lemma QuorumStays(c: ClusterState, c': ClusterState, t: nat, v: Id)
    requires HasQuorum(c, t, v) && c.msgs <= c'.msgs && c'.nodes.Keys == c.nodes.Keys
    ensures HasQuorum(c', t, v)
  {
    var voters :| |voters| >= |c.nodes.Keys| / 2 + 1 && Elects(c, voters, t, v);
    ElectsGrows(c, c', voters, t, v);
  }

  /** The acting node's tally holds shown votes only. */
  lemma ActorTally(c: ClusterState, step: Step)
    requires FreeInv(c) && CanStep(c, step) && step.Act? && |c.nodes.Keys| > 1 && Handle(c.nodes[step.v], step.call).node.ballot.Ballot?
    ensures var n' := Handle(c.nodes[step.v], step.call).node; Elects(Take(c, step), n'.ballot.granted, n'.ballot.term, step.v)
  {
    var v, call, c' := step.v, step.call, Take(c, step);
    var n := c.nodes[v];
    var n' := Handle(n, call).node;
    assert Placed(c, v) && (call.Receive? ==> KnownMsg(c, call.m));
    NewBallot(n, call);
    if n.ballot.Ballot? && n'.ballot.term == n.ballot.term && n'.ballot.granted == n.ballot.granted {
      ElectsGrows(c, c', n.ballot.granted, n.ballot.term, v);
    } else if call.Elect? {
      OwnVoteShown(c, step);
    } else {
      ElectsGrows(c, c', n.ballot.granted, n.ballot.term, v);
      assert call.m in c'.msgs && ShowsVote(call.m, call.m.src, n'.ballot.term, v);
    }
  }

  /** A candidate's own vote is shown by its requests, since it has peers. */
  lemma OwnVoteShown(c: ClusterState, step: Step)
    requires FreeInv(c) && CanStep(c, step) && step.Act? && |c.nodes.Keys| > 1 && step.call.Elect?
    requires forall p :: p in c.nodes[step.v].cfg.peers ==>
      VoteReq(step.v, p, Handle(c.nodes[step.v], step.call).node.currentTerm, step.call.bid.lastIndex, step.call.bid.lastTerm, false) in Take(c, step).msgs
    ensures Voted(Take(c, step).msgs, step.v, Handle(c.nodes[step.v], step.call).node.currentTerm, step.v)
  {
    var v := step.v;
    assert Placed(c, v);
    var rest := c.nodes.Keys - {v};
    assert |rest| > 0;
    var p :| p in rest;
    var n' := Handle(c.nodes[v], step.call).node;
    assert ShowsVote(VoteReq(v, p, n'.currentTerm, step.call.bid.lastIndex, step.call.bid.lastTerm, false), v, n'.currentTerm, v);
  }

  lemma ActorElected(c: ClusterState, step: Step)
    requires FreeInv(c) && CanStep(c, step)
    ensures Elected(Take(c, step), step.v)
  {
    var v, c' := step.v, Take(c, step);
    assert Placed(c, v);
    if step.Act? && |c.nodes.Keys| > 1 {
      var n, n' := c.nodes[v], c'.nodes[v];
      if n'.ballot.Ballot? { ActorTally(c, step); }
      if n'.role == Leader {
        NewLeader(n, step.call);
        if n.role == Leader && n'.currentTerm == n.currentTerm { QuorumStays(c, c', n.currentTerm, v); }
      }
    }
  }

  lemma StepPlaced(c: ClusterState, step: Step, u: Id)
    requires FreeInv(c) && CanStep(c, step)
    ensures Placed(Take(c, step), u)
  {
    var c' := Take(c, step);
    assert Placed(c, u) && Placed(c, step.v);
    if u == step.v {
      ActorMirrors(c, step);
      ActorElected(c, step);
    } else if u in c.nodes && u in c.disks && |c.nodes.Keys| > 1 {
      var n := c.nodes[u];
      if n.ballot.Ballot? { ElectsGrows(c, c', n.ballot.granted, n.ballot.term, u); }
      if n.role == Leader { QuorumStays(c, c', n.currentTerm, u); }
    }
  }

  lemma StepKnown(c: ClusterState, step: Step, m: Msg)
    requires FreeInv(c) && CanStep(c, step) && m in Take(c, step).msgs
    ensures KnownMsg(Take(c, step), m)
  {
    assert Placed(c, step.v);
    if m in c.msgs { assert KnownMsg(c, m); } else { SectionSends(c.nodes[step.v], step.call, m); }
  }

  lemma FreeStepInv(c: ClusterState, step: Step)
    requires FreeInv(c) && CanStep(c, step)
    ensures FreeInv(Take(c, step))
  {
    var c' := Take(c, step);
    forall u ensures Placed(c', u) { StepPlaced(c, step, u); }
    forall m | m in c'.msgs ensures KnownMsg(c', m) { StepKnown(c, step, m); }
    forall u, t: nat, w ensures VoteBinds(c', u, t, w) { VotesBind(c, step, u, t, w); }
    forall u, t: nat, w, w' ensures OneVote(c'.msgs, u, t, w, w') { VotesAreOne(c, step, u, t, w, w'); }
  }

  lemma StartFree(c: ClusterState)
    requires Start(c)
    ensures FreeInv(c)
  {
    forall v | v in c.nodes ensures Mirrors(c.nodes[v], c.disks[v]) { BlankMirrors(c.nodes[v].cfg); }
    forall v ensures Placed(c, v) { }
  }

  lemma BlankMirrors(cfg: Config)
    ensures Mirrors(Load(cfg, EMPTY_DISK), EMPTY_DISK)
  {
    ListingIs(map[], 0);
    forall i: nat ensures StoredAt(map[], 0, [], i) { }
    assert MirrorsBy(Load(cfg, EMPTY_DISK), EMPTY_DISK, []);
  }

  lemma {:induction false} FreeRunInv(run: seq<ClusterState>, steps: seq<Step>, i: nat)
    requires IsFreeRun(run, steps) && i < |run|
    ensures FreeInv(run[i])
    decreases i
  {
    if i == 0 {
      StartFree(run[0]);
    } else {
      FreeRunInv(run, steps, i - 1);
      assert FreeStep(run, steps, i - 1);
      FreeStepInv(run[i - 1], steps[i - 1]);
    }
  }

  /** Messages are never withdrawn, and the set of nodes is fixed. */
  lemma {:induction false} MessagesStay(run: seq<ClusterState>, steps: seq<Step>, i: nat, j: nat)
    requires IsFreeRun(run, steps) && i <= j < |run|
    ensures run[i].msgs <= run[j].msgs && run[i].nodes.Keys == run[j].nodes.Keys
    decreases j - i
  {
    if i < j {
      MessagesStay(run, steps, i, j - 1);
      assert FreeStep(run, steps, j - 1);
    }
  }

  lemma RunIsFree(run: seq<ClusterState>, steps: seq<Step>)
    requires IsRun(run, steps)
    ensures IsFreeRun(run, steps)
  {
    forall i: nat | i < |steps| ensures FreeStep(run, steps, i) { assert RunStep(run, steps, i); }
  }

  // ---- What holds of every free run ----

  lemma TwoLeaders(c: ClusterState, t: nat, u: Id, v: Id)
    requires FreeInv(c) && HasQuorum(c, t, u) && HasQuorum(c, t, v)
    ensures u == v
  {
    var a :| |a| >= |c.nodes.Keys| / 2 + 1 && Elects(c, a, t, u);
    var b :| |b| >= |c.nodes.Keys| / 2 + 1 && Elects(c, b, t, v);
    var w := QuorumsMeet(c.nodes.Keys, a, b);
    assert Voted(c.msgs, w, t, u) && Voted(c.msgs, w, t, v);
    assert OneVote(c.msgs, w, t, u, v);
  }

  lemma OnlyOne(ids: set<Id>, u: Id, v: Id)
    requires u in ids && v in ids && |ids| <= 1
    ensures u == v
  {
    if u != v { SubsetSize({u, v}, ids); }
  }

  /** At most one node ever leads a term, over every free run: restarts, late vote replies, divergent commits. */
  lemma ElectionSafety(run: seq<ClusterState>, steps: seq<Step>, i: nat, j: nat, u: Id, v: Id)
    requires IsFreeRun(run, steps) && i <= j < |run| && u in run[i].nodes && v in run[j].nodes
    requires run[i].nodes[u].role == Leader && run[j].nodes[v].role == Leader
    requires run[i].nodes[u].currentTerm == run[j].nodes[v].currentTerm
    ensures u == v
  {
    FreeRunInv(run, steps, i);
    FreeRunInv(run, steps, j);
    MessagesStay(run, steps, i, j);
    assert Placed(run[i], u) && Placed(run[j], v);
    var t := run[i].nodes[u].currentTerm;
    if |run[j].nodes.Keys| > 1 {
      QuorumStays(run[i], run[j], t, u);
      TwoLeaders(run[j], t, u, v);
    } else {
      OnlyOne(run[j].nodes.Keys, u, v);
    }
  }

  /** A granted vote binds the voter in every later state, reloaded or not. */
  lemma VotesHonoured(run: seq<ClusterState>, steps: seq<Step>, i: nat, m: Msg)
    requires IsFreeRun(run, steps) && i < |run| && m in run[i].msgs && m.VoteReply? && m.granted && !m.preVote
    ensures m.src in run[i].nodes
    ensures var n := run[i].nodes[m.src]; n.currentTerm > m.reqTerm || (n.currentTerm == m.reqTerm && n.votedFor == m.dst)
  {
    FreeRunInv(run, steps, i);
    assert ShowsVote(m, m.src, m.reqTerm, m.dst);
    assert VoteBinds(run[i], m.src, m.reqTerm, m.dst);
  }

  /** No node ever grants its vote in one term to two candidates. */
  lemma VotesUnique(run: seq<ClusterState>, steps: seq<Step>, i: nat, m: Msg, q: Msg)
    requires IsFreeRun(run, steps) && i < |run| && m in run[i].msgs && q in run[i].msgs
    requires m.VoteReply? && m.granted && !m.preVote && q.VoteReply? && q.granted && !q.preVote
    requires m.src == q.src && m.reqTerm == q.reqTerm
    ensures m.dst == q.dst
  {
    FreeRunInv(run, steps, i);
    assert ShowsVote(m, m.src, m.reqTerm, m.dst) && ShowsVote(q, m.src, m.reqTerm, q.dst);
    assert OneVote(run[i].msgs, m.src, m.reqTerm, m.dst, q.dst);
  }

  /** Every log is contiguous from its snapshot boundary, wherever a crash struck. */
  lemma LogsContiguous(run: seq<ClusterState>, steps: seq<Step>, i: nat, v: Id)
    requires IsFreeRun(run, steps) && i < |run| && v in run[i].nodes
    ensures Contiguous(run[i].nodes[v])
  {
    FreeRunInv(run, steps, i);
    assert Placed(run[i], v);
    MirrorsContiguous(run[i].nodes[v], run[i].disks[v]);
  }

  /** Storage mirrors memory: at every lock release a reload would rebuild the same term, vote, log and snapshot. */
  lemma StorageMirrors(run: seq<ClusterState>, steps: seq<Step>, i: nat, v: Id)
    requires IsFreeRun(run, steps) && i < |run| && v in run[i].nodes
    ensures v in run[i].disks
    ensures var n := run[i].nodes[v]; var r := Load(n.cfg, run[i].disks[v]);
      && r.currentTerm == n.currentTerm && r.votedFor == n.votedFor && r.entries == n.entries
      && r.snapshotIndex == n.snapshotIndex && r.snapshotTerm == n.snapshotTerm && r.snapshotData == n.snapshotData
  {
    FreeRunInv(run, steps, i);
    assert Placed(run[i], v);
    MirrorsReload(run[i].nodes[v], run[i].disks[v]);
  }
}
