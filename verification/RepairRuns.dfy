/** Log repair in runs: every leader is in a position to repair every follower of its term. */
module RepairRuns {
  import opened JukeboxTypes
  import opened RaftLog
  import opened Storage
  import opened Node
  import opened Cluster
  import opened Consensus
  import opened ConsensusSteps
  import opened ConsensusLogs
  import opened ConsensusSafety
  import opened Relation
  import opened Compaction
  import opened AppliedLog
  import opened Theorems
  import opened ReadIndex
  import opened Repair

  // ---- nextIndex stays in range ----

  predicate NextInRange(n: NodeState, p: Id) {
    n.role == Leader && p in n.cfg.peers ==> 1 <= Get(n.nextIndex, p) <= LastIndexOr0(n) + 1
  }

  /** A current reply points no further than the leader's log. */
  predicate ReplyInRange(n: NodeState, m: Msg) {
    n.role == Leader ==>
      match m
      case AppendReply(_, _, _, reqTerm, prevIndex, count, term, success, conflictIndex, _) =>
        reqTerm == n.currentTerm && term <= n.currentTerm ==>
          if success then prevIndex + count <= LastIndexOr0(n) else conflictIndex <= LastIndexOr0(n) + 1
      case SnapReply(_, _, reqTerm, lastIndex, term) =>
        reqTerm == n.currentTerm && term <= n.currentTerm ==> lastIndex <= LastIndexOr0(n)
      case _ => true
  }

  lemma NextAfterInRange(n: NodeState, conflictIndex: nat, conflictTerm: nat)
    requires Contiguous(n) && conflictIndex <= LastIndex(n) + 1
    ensures NextAfterConflict(n, conflictIndex, conflictTerm) <= LastIndex(n) + 1
  {
    LastOfTermMeans(n.entries, conflictTerm);
  }

  lemma ReplyKeepsNext(n: NodeState, m: Msg, p: Id)
    requires Contiguous(n) && NextInRange(n, p) && ReplyInRange(n, m) && (m.AppendReply? || m.SnapReply?)
    ensures NextInRange(OnMessage(n, m, true).node, p)
  {
    if m.AppendReply? && n.role == Leader && n.currentTerm == m.reqTerm && m.term <= n.currentTerm && !m.success {
      NextAfterInRange(n, m.conflictIndex, m.conflictTerm);
    }
  }

  lemma VoteReplyKeepsNext(n: NodeState, m: Msg, p: Id)
    requires Contiguous(n) && NextInRange(n, p) && m.VoteReply?
    ensures NextInRange(OnMessage(n, m, true).node, p)
  {
  }

  lemma RequestKeepsNext(n: NodeState, m: Msg, calm: bool, p: Id)
    requires Contiguous(n) && NextInRange(n, p) && (m.VoteReq? || m.AppendReq? || m.SnapReq?)
    ensures NextInRange(OnMessage(n, m, calm).node, p)
  {
  }

  lemma ApplyKeepsNext(n: NodeState, p: Id)
    requires Valid(n) && NextInRange(n, p)
    ensures NextInRange(ApplyReady(n).node, p)
  {
    var o := ApplyLoop(n);
    assert o.node.entries == n.entries;
  }

  lemma CallKeepsNext(n: NodeState, call: Call, p: Id)
    requires CanCall(n, call) && NextInRange(n, p) && (call.Receive? ==> ReplyInRange(n, call.m))
    ensures NextInRange(Handle(n, call).node, p)
  {
    match call {
      case Receive(m, calm) =>
        if m.AppendReply? || m.SnapReply? { ReplyKeepsNext(n, m, p); }
        else if m.VoteReply? { VoteReplyKeepsNext(n, m, p); }
        else { RequestKeepsNext(n, m, calm, p); }
      case ApplyCommitted => ApplyKeepsNext(n, p);
      case _ =>
    }
  }

  /** A rejection in the request's term hints at an index no later than the one it rejects. */
  lemma RejectBounded(n: NodeState, q: Msg, r: Msg)
    requires Contiguous(n) && q.AppendReq? && r in OnAppend(n, q).sends && r.AppendReply? && !r.success && r.term <= r.reqTerm
    ensures r.conflictIndex <= r.prevIndex
  {
    var g := Follow(n, q.term, q.src);
    if q.term >= n.currentTerm && !PrevMissing(g, q) {
      assert PrevConflicts(g, q);
      var i := FirstOfTermMeans(g.entries, TermOf(g, q.prevIndex).value, g.snapshotIndex + 1, q.prevIndex - g.snapshotIndex);
    }
  }

  lemma {:induction false} RejectsBounded(run: seq<ClusterState>, steps: seq<Step>, i: nat, m: Msg)
    requires IsRun(run, steps) && i < |run| && m in run[i].msgs && m.AppendReply? && !m.success && m.term <= m.reqTerm
    ensures m.conflictIndex <= m.prevIndex
    decreases i
  {
    if i > 0 {
      var n := StepNode(run, steps, i - 1);
      var call := steps[i - 1].call;
      if m in run[i - 1].msgs {
        RejectsBounded(run, steps, i - 1, m);
      } else {
        ReplyOf(n, call, m);
        RejectBounded(n, call.m, m);
      }
    }
  }

  lemma AckInRange(c: ClusterState, s: State, v: Id, m: Msg)
    requires Matched(c, s) && v in c.nodes && c.nodes[v].role == Leader && m in c.msgs
    requires (m.AppendReply? && m.success) || (m.SnapReply? && m.term <= m.reqTerm)
    requires m.reqTerm == c.nodes[v].currentTerm
    ensures (if m.AppendReply? then m.prevIndex + m.count else m.lastIndex) <= LastIndexOr0(c.nodes[v])
  {
    NodeOf(c, s, v);
    LeaderReigns(c, s, v);
    LastIs(s, v, c.nodes[v]);
    assert MsgRel(s, m);
    assert (m.src, m.reqTerm) in s.acked ==> GoodAck(s, m.src, m.reqTerm);
  }

  lemma RequestInRange(c: ClusterState, s: State, v: Id, q: Msg)
    requires Matched(c, s) && v in c.nodes && c.nodes[v].role == Leader && q in c.msgs && q.AppendReq? && q.term == c.nodes[v].currentTerm
    ensures q.prevIndex <= LastIndexOr0(c.nodes[v])
  {
    NodeOf(c, s, v);
    LeaderReigns(c, s, v);
    LastIs(s, v, c.nodes[v]);
    assert MsgRel(s, q);
  }

  lemma RepliesInRange(run: seq<ClusterState>, steps: seq<Step>, i: nat, v: Id, m: Msg)
    requires IsRun(run, steps) && i < |run| && v in run[i].nodes && m in run[i].msgs
    ensures ReplyInRange(run[i].nodes[v], m)
  {
    var n := run[i].nodes[v];
    if n.role == Leader && (m.AppendReply? || m.SnapReply?) && m.reqTerm == n.currentTerm && m.term <= n.currentTerm {
      var s := StateOf(run, steps, i);
      if m.SnapReply? || m.success {
        AckInRange(run[i], s, v, m);
      } else {
        ReplyRequested(run, steps, i, m);
        var q :| q in run[i].msgs && IsRequestFor(q, m);
        RequestInRange(run[i], s, v, q);
        RejectsBounded(run, steps, i, m);
      }
    }
  }

  /** Over every run a leader's nextIndex stays between 1 and the end of its log. */
  lemma {:induction false} NextStaysInRange(run: seq<ClusterState>, steps: seq<Step>, i: nat, v: Id, p: Id)
    requires IsRun(run, steps) && i < |run| && v in run[i].nodes
    ensures NextInRange(run[i].nodes[v], p)
    decreases i
  {
    if i > 0 {
      var n := StepNode(run, steps, i - 1);
      var step := steps[i - 1];
      NextStaysInRange(run, steps, i - 1, v, p);
      if step.Act? && step.v == v {
        if step.call.Receive? { RepliesInRange(run, steps, i - 1, v, step.call.m); }
        CallKeepsNext(n, step.call, p);
      }
    }
  }

  // ---- Repair from any state of a run ----

  lemma RootedOneLeader(reigns: map<nat, Reign>, a: Log, b: Log)
    requires Rooted(reigns, a) && Rooted(reigns, b)
    ensures OneLeader(a, b)
  {
    forall i: nat, j: nat | i < |a| && j < |b| && a[i].term == b[j].term ensures Agree(a, b, Min(i, j) + 1) {
      assert RootedAt(reigns, a, i) && RootedAt(reigns, b, j);
    }
  }

  /** A commit that a server of term at most t holds is in the log of t's leader. */
  lemma CommitInLead(s: State, v: Id, p: Id)
    requires Inv(s) && v in s.servers && p in s.servers && s.servers[p].term <= s.servers[v].term
    requires s.servers[v].term in s.reigns && s.reigns[s.servers[v].term].leader == v
    ensures Agree(s.servers[p].log, s.servers[v].log, s.servers[p].commit)
  {
    var t := s.servers[v].term;
    assert GoodReign(s, t) && GoodCommit(s, p);
    if s.servers[p].commit > 0 { AnnouncedInLater(s, s.servers[p].cert, t); }
  }

  lemma MatchAgrees(s: State, v: Id, p: Id, n: NodeState)
    requires Inv(s) && NodeRel(s, v, n) && n.role == Leader && p in s.servers && s.servers[p].term <= n.currentTerm
    ensures v in s.servers
    ensures Agree(s.servers[p].log, s.servers[v].log, Get(n.matchIndex, p)) || Get(n.matchIndex, p) < n.snapshotIndex
  {
    assert MatchAt(s, n, p) && GoodReign(s, n.currentTerm);
    if (p, n.currentTerm) in s.acked { assert GoodAck(s, p, n.currentTerm); }
  }

  lemma PairedInState(c: ClusterState, s: State, v: Id, p: Id)
    requires Matched(c, s) && v in c.nodes && p in c.nodes && c.nodes[v].role == Leader && p in c.nodes[v].cfg.peers
    requires c.nodes[p].currentTerm <= c.nodes[v].currentTerm
    ensures v in s.servers && p in s.servers
    ensures Paired(c.nodes[v], c.nodes[p], s.servers[v].log, s.servers[p].log, p)
    ensures LastIndexOr0(c.nodes[v]) == |s.servers[v].log|
  {
    NodeOf(c, s, v);
    NodeOf(c, s, p);
    LeaderReigns(c, s, v);
    LastIs(s, v, c.nodes[v]);
    RootedOneLeader(s.reigns, s.servers[v].log, s.servers[p].log);
    CommitInLead(s, v, p);
    MatchAgrees(s, v, p, c.nodes[v]);
  }

  /** A follower in step covers what the leader covers: what it has not in memory has been applied. */
  lemma SyncedCovers(n': NodeState, f: NodeState, lead: Log, log: Log, p: Id, applied: set<Entry>, k: nat, e: Entry)
    requires Synced(n', f, lead, log, p) && InLog(lead, e) && Within(applied, lead, k) && f.snapshotIndex <= k
    ensures Covers(f, applied, e)
  {
    assert log[e.index - 1] == e;
  }

  /** Everything either snapshot covers has been applied. */
  lemma SnapshotsWithin(c: ClusterState, s: State, v: Id, p: Id)
    requires Matched(c, s) && v in c.nodes && p in c.nodes && c.nodes[v].role == Leader && p in c.nodes[v].cfg.peers
    requires c.nodes[p].currentTerm <= c.nodes[v].currentTerm
    ensures v in s.servers && Within(c.applied, s.servers[v].log, Max(c.nodes[p].snapshotIndex, c.nodes[v].snapshotIndex))
  {
    NodeOf(c, s, v);
    NodeOf(c, s, p);
    PairedInState(c, s, v, p);
    assert NodeLogged(c, s, v) && NodeLogged(c, s, p);
    var a, b := c.nodes[p].snapshotIndex, c.nodes[v].snapshotIndex;
    WithinMoves(c.applied, c.applied, s.servers[p].log, s.servers[v].log, c.nodes[p].lastApplied, a);
    WithinMoves(c.applied, c.applied, s.servers[v].log, s.servers[v].log, c.nodes[v].lastApplied, b);
  }

  /** Log repair terminates with the follower covering the leader's log, from every state of every run. */
  lemma RepairTerminates(run: seq<ClusterState>, steps: seq<Step>, i: nat, v: Id, p: Id) returns (k: nat)
    requires IsRun(run, steps) && i < |run| && v in run[i].nodes && p in run[i].nodes
    requires run[i].nodes[v].role == Leader && p in run[i].nodes[v].cfg.peers
    requires run[i].nodes[p].currentTerm <= run[i].nodes[v].currentTerm && !Stuck(run[i].nodes[v], p)
    ensures var n := run[i].nodes[v]; var f := run[i].nodes[p];
      && n.entries != [] && f.entries != [] && k <= Get(n.nextIndex, p) + 1
      && Get(Rounds(n, f, p, k).0.matchIndex, p) >= LastIndex(n)
      && forall e :: Covers(n, run[i].applied, e) ==> Covers(Rounds(n, f, p, k).1, run[i].applied, e)
  {
    var s := StateOf(run, steps, i);
    var n, f := run[i].nodes[v], run[i].nodes[p];
    PairedInState(run[i], s, v, p);
    NextStaysInRange(run, steps, i, v, p);
    var lead := s.servers[v].log;
    var log';
    k, log' := Converges(n, f, lead, s.servers[p].log, p);
    var (n', f') := Rounds(n, f, p, k);
    SnapshotsWithin(run[i], s, v, p);
    var snap := Max(f.snapshotIndex, n.snapshotIndex);
    forall e | Covers(n, run[i].applied, e) ensures Covers(f', run[i].applied, e) {
      CoversIs(run[i], s, v, e);
      SyncedCovers(n', f', lead, log', p, run[i].applied, snap, e);
    }
  }

  lemma PairInRun(run: seq<ClusterState>, steps: seq<Step>, i: nat, v: Id, p: Id) returns (lead: Log, log: Log)
    requires IsRun(run, steps) && i < |run| && v in run[i].nodes && p in run[i].nodes
    requires run[i].nodes[v].role == Leader && p in run[i].nodes[v].cfg.peers
    requires run[i].nodes[p].currentTerm <= run[i].nodes[v].currentTerm
    ensures Paired(run[i].nodes[v], run[i].nodes[p], lead, log, p) && InRange(run[i].nodes[v], p, |lead|)
    ensures LastIndexOr0(run[i].nodes[v]) == |lead| && LastIndexOr0(run[i].nodes[p]) == |log|
    ensures run[i].nodes[v].entries != [] && run[i].nodes[p].entries != []
  {
    var s := StateOf(run, steps, i);
    PairedInState(run[i], s, v, p);
    NodeOf(run[i], s, p);
    LastIs(s, p, run[i].nodes[p]);
    NextStaysInRange(run, steps, i, v, p);
    lead, log := s.servers[v].log, s.servers[p].log;
  }

  ghost predicate CaughtUp(n: NodeState, f: NodeState, p: Id, k: nat)
    requires n.entries != [] && f.entries != []
  {
    Get(Rounds(n, f, p, k).0.matchIndex, p) >= LastIndex(n)
  }

  /** From every state of every run, repair brings a peer in step if and only if it is not stuck or has nothing left to do. */
  lemma RepairIffInRuns(run: seq<ClusterState>, steps: seq<Step>, i: nat, v: Id, p: Id)
    requires IsRun(run, steps) && i < |run| && v in run[i].nodes && p in run[i].nodes
    requires run[i].nodes[v].role == Leader && p in run[i].nodes[v].cfg.peers
    requires run[i].nodes[p].currentTerm <= run[i].nodes[v].currentTerm
    ensures var n, f := run[i].nodes[v], run[i].nodes[p];
      && n.entries != [] && f.entries != []
      && ((exists k: nat :: CaughtUp(n, f, p, k)) <==> !Stuck(n, p) || Get(n.matchIndex, p) >= LastIndex(n))
  {
    var n, f := run[i].nodes[v], run[i].nodes[p];
    var lead, log := PairInRun(run, steps, i, v, p);
    if !Stuck(n, p) {
      var k, log' := Converges(n, f, lead, log, p);
      assert CaughtUp(n, f, p, k);
    } else {
      assert Rounds(n, f, p, 0) == (n, f);
      assert Get(n.matchIndex, p) >= LastIndex(n) ==> CaughtUp(n, f, p, 0);
      forall k: nat ensures CaughtUp(n, f, p, k) ==> Get(n.matchIndex, p) >= LastIndex(n) { var f1 := StuckStays(n, f, lead, log, p, k); }
    }
  }

  /** A stuck peer does not get an entry beyond its log, however long the exchange goes on. */
  lemma StuckForever(run: seq<ClusterState>, steps: seq<Step>, i: nat, v: Id, p: Id, k: nat, e: Entry)
    requires IsRun(run, steps) && i < |run| && v in run[i].nodes && p in run[i].nodes
    requires run[i].nodes[v].role == Leader && p in run[i].nodes[v].cfg.peers
    requires run[i].nodes[p].currentTerm <= run[i].nodes[v].currentTerm && Stuck(run[i].nodes[v], p)
    requires e.index > LastIndexOr0(run[i].nodes[p])
    ensures var n, f := run[i].nodes[v], run[i].nodes[p];
      && n.entries != [] && f.entries != [] && Rounds(n, f, p, k).0 == n && !Holds(Rounds(n, f, p, k).1, e)
      && Rounds(n, f, p, k).1.snapshotIndex <= Max(f.snapshotIndex, n.snapshotIndex)
  {
    var n, f := run[i].nodes[v], run[i].nodes[p];
    var lead, log := PairInRun(run, steps, i, v, p);
    var f1 := StuckStays(n, f, lead, log, p, k);
  }
}
