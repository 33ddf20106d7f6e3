/**
 How far commit indexes go (internal/raft/replication.go:101-178, 241-245): a follower's exactly as far as the
 request and its log allow, a leader's exactly as far as the acknowledgements it has count, in every state of every run.
 */
module CommitProgress {
  import opened JukeboxTypes
  import opened RaftLog
  import opened Storage
  import opened Node
  import opened Cluster
  import opened Consensus
  import opened ConsensusSafety
  import opened Relation
  import opened Compaction
  import opened Simulation
  import opened AppliedLog
  import opened Theorems
  import opened ReadIndex
  import opened CommitRule
  import opened Repair
  import opened RepairRuns
  import opened FreeRuns

  // ---- The follower ----

  predicate BothReach(j: nat, leaderCommit: nat, last: nat) {
    j <= leaderCommit && j <= last
  }

  /** k is the greatest index that was committed before, or that both the request and the log reach. */
  ghost predicate FollowsTo(n: NodeState, last: nat, leaderCommit: nat, k: nat) {
    && (k == n.commitIndex || BothReach(k, leaderCommit, last))
    && n.commitIndex <= k && forall j: nat {:trigger BothReach(j, leaderCommit, last)} :: BothReach(j, leaderCommit, last) ==> j <= k
  }

  lemma AcceptedIs(n: NodeState, m: Msg)
    requires m.AppendReq? && n.entries != []
    ensures var n' := OnAppend(n, m).node;
      && n'.entries != []
      && (ReplyTo(n, m).success ==> n'.commitIndex == if m.leaderCommit > n.commitIndex then Min(m.leaderCommit, LastIndex(n')) else n.commitIndex)
      && (!ReplyTo(n, m).success ==> n'.commitIndex == n.commitIndex && n'.entries == n.entries)
  {
    if m.term >= n.currentTerm {
      FollowerAnswers(n, m);
    } else {
      assert ReplyTo(n, m) in OnAppend(n, m).sends;
    }
  }

  /**
   An accepted request leaves the commit index at the greatest index that the old one, or request and log together, reach, unless
   the merge cut the log below a commit index the request would raise; a refused request leaves it where it was.
   */
  lemma FollowerCommitIff(n: NodeState, m: Msg, k: nat)
    requires m.AppendReq? && n.entries != []
    ensures var n' := OnAppend(n, m).node; n'.entries != []
    ensures var n' := OnAppend(n, m).node; ReplyTo(n, m).success ==>
      (FollowsTo(n, LastIndex(n'), m.leaderCommit, n'.commitIndex) <==> m.leaderCommit <= n.commitIndex || n.commitIndex <= LastIndex(n'))
    ensures var n' := OnAppend(n, m).node; ReplyTo(n, m).success && (m.leaderCommit <= n.commitIndex || n.commitIndex <= LastIndex(n')) ==>
      (n'.commitIndex == k <==> FollowsTo(n, LastIndex(n'), m.leaderCommit, k))
    ensures !ReplyTo(n, m).success ==> OnAppend(n, m).node.commitIndex == n.commitIndex
  {
    AcceptedIs(n, m);
    var n' := OnAppend(n, m).node;
    ReachesBoth(n, LastIndex(n'), m.leaderCommit, k);
    ReachesBoth(n, LastIndex(n'), m.leaderCommit, n'.commitIndex);
  }

  lemma ReachesBoth(n: NodeState, last: nat, leaderCommit: nat, k: nat)
    ensures FollowsTo(n, last, leaderCommit, k) <==>
      k == Max(n.commitIndex, Min(leaderCommit, last))
  {
    assert BothReach(Min(leaderCommit, last), leaderCommit, last);
  }

  lemma CommitKept(run: seq<ClusterState>, steps: seq<Step>, i: nat)
    requires IsRun(run, steps) && i < |steps| && steps[i].Act?
    ensures steps[i].v in run[i].nodes && steps[i].v in run[i + 1].nodes
    ensures run[i + 1].nodes[steps[i].v].entries != [] && run[i].nodes[steps[i].v].commitIndex <= LastIndex(run[i + 1].nodes[steps[i].v])
  {
    var v := steps[i].v;
    var s := StateOf(run, steps, i);
    assert RunStep(run, steps, i);
    var s' := MatchedStep(run[i], s, steps[i]);
    NodeOf(run[i], s, v);
    NodeOf(run[i + 1], s', v);
    LastTransparent(run[i + 1].nodes[v], s'.servers[v].log);
    assert Agree(s.servers[v].log, s'.servers[v].log, s.servers[v].commit);
  }

  /** In every run an accepted request takes the follower's commit index exactly as far as the request and its log allow. */
  lemma FollowerCommits(run: seq<ClusterState>, steps: seq<Step>, i: nat, m: Msg, calm: bool, k: nat)
    requires IsRun(run, steps) && i < |steps| && steps[i].Act? && steps[i].call == Receive(m, calm) && m.AppendReq?
    ensures steps[i].v in run[i].nodes && steps[i].v in run[i + 1].nodes
    ensures var n, n' := run[i].nodes[steps[i].v], run[i + 1].nodes[steps[i].v];
      && n.entries != [] && n'.entries != []
      && (ReplyTo(n, m).success ==> (n'.commitIndex == k <==> FollowsTo(n, LastIndex(n'), m.leaderCommit, k)))
      && (!ReplyTo(n, m).success ==> n'.commitIndex == n.commitIndex)
  {
    assert RunStep(run, steps, i);
    CommitKept(run, steps, i);
    FollowerCommitIff(run[i].nodes[steps[i].v], m, k);
  }

  // ---- The leader ----

  /** No index above a leader's commit index is of its own term and on a quorum, as far as it knows. */
  ghost predicate Settled(n: NodeState) {
    n.role == Leader ==> forall k: nat {:trigger HeldByQuorum(n, k)} :: k > n.commitIndex ==> !HeldByQuorum(n, k)
  }

  lemma AdvanceSettles(n: NodeState)
    requires Contiguous(n) && NoRepeats(n.cfg.peers) && n.cfg.id !in n.cfg.peers
    ensures Settled(AdvanceCommit(n))
  {
    var n' := AdvanceCommit(n);
    SearchExact(n, LastIndex(n));
    forall k: nat | k > n'.commitIndex ensures !HeldByQuorum(n', k) {
      assert HeldByQuorum(n', k) <==> HeldByQuorum(n, k);
      assert k > LastIndex(n) ==> TermOf(n, k) == None;
    }
  }

  ghost predicate CountsAlike(n: NodeState, n': NodeState, p: Id, k: nat) {
    Get(n'.matchIndex, p) >= k <==> Get(n.matchIndex, p) >= k
  }

  /** The parts of a node the commit rule reads are the same above its commit index. */
  lemma SettledStays(n: NodeState, n': NodeState)
    requires Settled(n) && (n'.role == Leader ==> n.role == Leader && n'.currentTerm == n.currentTerm && n'.commitIndex == n.commitIndex)
    requires n'.cfg == n.cfg && forall k: nat :: k > n.commitIndex ==> TermOf(n', k) == TermOf(n, k)
    requires forall p, k: nat {:trigger CountsAlike(n, n', p, k)} :: k > n.commitIndex ==> CountsAlike(n, n', p, k)
    ensures Settled(n')
  {
    if n'.role == Leader {
      forall k: nat | k > n'.commitIndex ensures !HeldByQuorum(n', k) {
        forall p ensures p in HoldersOf(n', k) <==> p in HoldersOf(n, k) { assert CountsAlike(n, n', p, k); }
        assert HoldersOf(n', k) == HoldersOf(n, k);
        assert !HeldByQuorum(n, k);
      }
    }
  }

  /** A snapshot's acknowledgement counts nothing beyond what the leader has committed. */
  predicate SnapReplyBounded(n: NodeState, m: Msg) {
    m.SnapReply? && n.role == Leader && m.reqTerm == n.currentTerm && m.term <= n.currentTerm ==> m.lastIndex <= n.commitIndex
  }

  ghost predicate Ready(n: NodeState) {
    Contiguous(n) && Settled(n) && NoRepeats(n.cfg.peers) && n.cfg.id !in n.cfg.peers
  }

  /** The reply is a success that tells the leader something new. */
  ghost predicate Raises(n: NodeState, m: Msg)
    requires m.AppendReply?
  {
    m.term <= n.currentTerm && n.role == Leader && n.currentTerm == m.reqTerm && m.success && m.prevIndex + m.count > Get(n.matchIndex, m.src)
  }

  lemma AppendReplySettles(n: NodeState, m: Msg)
    requires Ready(n) && m.AppendReply?
    ensures Settled(OnAppendReply(n, m).node)
  {
    if Raises(n, m) {
      RaisingSettles(n, m);
    } else {
      UncountedReply(n, m);
      SettledStays(n, OnAppendReply(n, m).node);
    }
  }

  function Raised(n: NodeState, p: Id, k: nat): NodeState {
    n.(matchIndex := n.matchIndex[p := k], nextIndex := n.nextIndex[p := k + 1])
  }

  lemma RaisedIs(n: NodeState, m: Msg)
    requires Contiguous(n) && m.AppendReply? && Raises(n, m)
    ensures var n1 := Raised(n, m.src, m.prevIndex + m.count);
      Contiguous(n1) && n1.cfg == n.cfg && OnAppendReply(n, m).node == AdvanceCommit(n1)
  {
  }

  lemma RaisingSettles(n: NodeState, m: Msg)
    requires Ready(n) && m.AppendReply? && Raises(n, m)
    ensures Settled(OnAppendReply(n, m).node)
  {
    RaisedIs(n, m);
    AdvanceSettles(Raised(n, m.src, m.prevIndex + m.count));
  }

  lemma UncountedReply(n: NodeState, m: Msg)
    requires m.AppendReply? && n.entries != [] && !Raises(n, m)
    ensures var n' := OnAppendReply(n, m).node;
      && n'.matchIndex == n.matchIndex && n'.commitIndex == n.commitIndex && n'.entries == n.entries && n'.snapshotIndex == n.snapshotIndex
      && n'.cfg == n.cfg && (n'.role == Leader ==> n.role == Leader && n'.currentTerm == n.currentTerm)
  {
  }

  lemma SnapReplySettles(n: NodeState, m: Msg)
    requires Ready(n) && m.SnapReply? && SnapReplyBounded(n, m)
    ensures Settled(OnSnapReply(n, m).node)
  {
    var n' := OnSnapReply(n, m).node;
    forall p, k: nat | k > n.commitIndex ensures CountsAlike(n, n', p, k) { }
    SettledStays(n, n');
  }

  lemma BecomeLeaderSettles(n: NodeState)
    requires Ready(n)
    ensures Settled(BecomeLeader(n).0)
  {
    if n.role != Leader {
      var next := LastIndex(n) + 1;
      AdvanceSettles(n.(role := Leader, leaderId := n.cfg.id, nextIndex := map p | p in n.cfg.peers :: next,
                        matchIndex := map p | p in n.cfg.peers :: 0, entries := n.entries + [Entry(n.currentTerm, next, NOOP)]));
    }
  }

  lemma ElectSettles(n: NodeState, bid: Bid)
    requires Ready(n)
    ensures Settled(StartElection(n, bid).node)
  {
    var n1 := n.(currentTerm := n.currentTerm + 1, role := Candidate, votedFor := n.cfg.id, leaderId := "");
    BecomeLeaderSettles(n1);
  }

  lemma VoteReplySettles(n: NodeState, m: Msg)
    requires Ready(n) && m.VoteReply?
    ensures Settled(OnVoteReply(n, m).node)
  {
    var n' := OnVoteReply(n, m).node;
    if n.role == Candidate && n.ballot.Ballot? && n'.role == Leader {
      BecomeLeaderSettles(n.(ballot := Ballot(m.reqTerm, n.ballot.granted + {m.src}, true)));
    } else {
      SettledStays(n, n');
    }
  }

  lemma RequestSettles(n: NodeState, m: Msg, calm: bool)
    requires Ready(n) && (m.VoteReq? || m.AppendReq? || m.SnapReq?)
    ensures Settled(OnMessage(n, m, calm).node)
  {
    var n' := OnMessage(n, m, calm).node;
    if n'.role == Leader { SettledStays(n, n'); }
  }

  function Proposed(n: NodeState, payload: Payload, wait: bool): NodeState
    requires n.entries != []
  {
    var e := Entry(n.currentTerm, LastIndex(n) + 1, payload);
    n.(entries := n.entries + [e], pending := if wait then n.pending[e.index := Waiter(e.term, payload)] else n.pending)
  }

  lemma ProposedIs(n: NodeState, payload: Payload, wait: bool)
    requires Contiguous(n) && n.role == Leader
    ensures var n1 := Proposed(n, payload, wait); Contiguous(n1) && n1.cfg == n.cfg && ProposeEntry(n, payload, wait).node == AdvanceCommit(n1)
  {
  }

  lemma ProposeSettles(n: NodeState, payload: Payload, wait: bool)
    requires Ready(n) && n.role == Leader
    ensures Settled(ProposeEntry(n, payload, wait).node)
  {
    ProposedIs(n, payload, wait);
    AdvanceSettles(Proposed(n, payload, wait));
  }

  lemma ApplySettles(n: NodeState)
    requires Ready(n) && Valid(n)
    ensures Settled(ApplyReady(n).node)
  {
    var n1 := ApplyLoop(n).node;
    SettledStays(n, n1);
    SettledStays(n1, ApplyReady(n).node);
  }

  /** Every section leaves a leader's commit index as far as its acknowledgements count. */
  lemma CallSettles(n: NodeState, call: Call)
    requires Ready(n) && CanCall(n, call) && (call.Receive? ==> SnapReplyBounded(n, call.m))
    ensures Settled(Handle(n, call).node)
  {
    match call {
      case Elect(bid) => ElectSettles(n, bid);
      case Receive(m, calm) =>
        if m.AppendReply? { AppendReplySettles(n, m); }
        else if m.SnapReply? { SnapReplySettles(n, m); }
        else if m.VoteReply? { VoteReplySettles(n, m); }
        else { RequestSettles(n, m, calm); }
      case Submit(payload, wait) => ProposeSettles(n, payload, wait);
      case ApplyCommitted => ApplySettles(n);
      case _ =>
    }
  }

  // ---- Over runs ----

  ghost predicate IsSnapshotFor(q: Msg, m: Msg)
    requires m.SnapReply?
  {
    q.SnapReq? && q.src == m.dst && q.dst == m.src && q.term == m.reqTerm && q.lastIndex == m.lastIndex
  }

  lemma SnapReplyOf(n: NodeState, call: Call, m: Msg)
    requires CanCall(n, call) && m in Handle(n, call).sends && m.SnapReply?
    ensures call.Receive? && IsSnapshotFor(call.m, m)
  {
    match call {
      case Receive(q, calm) => if q.SnapReq? { SnapAnswered(n, q, m); } else { NoSnapReply(n, q, calm, m); }
      case _ =>
    }
  }

  lemma NoSnapReply(n: NodeState, q: Msg, calm: bool, m: Msg)
    requires n.entries != [] && !q.SnapReq? && m in OnMessage(n, q, calm).sends
    ensures !m.SnapReply?
  {
    if q.VoteReq? { VoteSends(n, q, calm, m); } else if q.AppendReq? { AppendSends(n, q, m); }
  }

  lemma SnapAnswered(n: NodeState, q: Msg, m: Msg)
    requires q.SnapReq? && q.dst == n.cfg.id && m in OnSnapshot(n, q).sends
    ensures m.SnapReply? && IsSnapshotFor(q, m)
  {
  }

  lemma {:induction false} SnapshotRequested(run: seq<ClusterState>, steps: seq<Step>, i: nat, m: Msg) returns (q: Msg)
    requires IsRun(run, steps) && i < |run| && m in run[i].msgs && m.SnapReply?
    ensures q in run[i].msgs && IsSnapshotFor(q, m)
    decreases i
  {
    var h := i - 1;
    var n := StepNode(run, steps, h);
    if m in run[h].msgs {
      q := SnapshotRequested(run, steps, h, m);
    } else {
      SnapReplyOf(n, steps[h].call, m);
      q := steps[h].call.m;
    }
  }

  lemma SnapRepliesBounded(run: seq<ClusterState>, steps: seq<Step>, i: nat, v: Id, m: Msg)
    requires IsRun(run, steps) && i < |run| && v in run[i].nodes && m in run[i].msgs
    ensures SnapReplyBounded(run[i].nodes[v], m)
  {
    var n := run[i].nodes[v];
    if m.SnapReply? && n.role == Leader && m.reqTerm == n.currentTerm {
      var q := SnapshotRequested(run, steps, i, m);
      var s := StateOf(run, steps, i);
      LeaderReigns(run[i], s, v);
      assert MsgRel(s, q);
    }
  }

  /** In every state of every run, no index above a leader's commit index is of its own term and on a quorum of its matchIndex. */
  lemma {:induction false} CommitSettled(run: seq<ClusterState>, steps: seq<Step>, i: nat, v: Id)
    requires IsRun(run, steps) && i < |run| && v in run[i].nodes
    ensures Settled(run[i].nodes[v])
    decreases i
  {
    if i > 0 {
      var h := i - 1;
      var n := StepNode(run, steps, h);
      CommitSettled(run, steps, h, v);
      if steps[h].v == v && steps[h].Act? {
        var s := StateOf(run, steps, h);
        NodeOf(run[h], s, v);
        if steps[h].call.Receive? { SnapRepliesBounded(run, steps, h, v, steps[h].call.m); }
        CallSettles(n, steps[h].call);
      }
    }
  }

  // ---- After repair ----

  lemma {:induction false} SearchBounded(n: NodeState, from: nat)
    ensures n.commitIndex <= CommitSearch(n, from) <= Max(n.commitIndex, from)
    decreases from
  {
    if from > n.commitIndex && !Countable(n, from) { SearchBounded(n, from - 1); }
  }

  ghost predicate CommitsOn(n: NodeState, n': NodeState) {
    n.entries != [] && n'.entries == n.entries && n.commitIndex <= n'.commitIndex <= Max(n.commitIndex, LastIndex(n))
  }

  lemma ReplyCommitsOn(n: NodeState, m: Msg)
    requires n.entries != [] && (m.AppendReply? || m.SnapReply?)
    ensures CommitsOn(n, OnMessage(n, m, true).node)
  {
    if m.AppendReply? {
      var k := m.prevIndex + m.count;
      SearchBounded(n.(matchIndex := n.matchIndex[m.src := k], nextIndex := n.nextIndex[m.src := k + 1]), LastIndex(n));
    }
  }

  lemma RoundCommitsOn(n: NodeState, f: NodeState, p: Id)
    requires n.entries != []
    ensures CommitsOn(n, Exchange(p)((n, f)).0)
  {
    if f.entries != [] {
      if CanReplicate(n, p) {
        var r := ReplyTo(f, ReplicateTo(n, p, 0));
        ReplyCommitsOn(n, r);
      } else {
        var m := SnapshotTo(n, p);
        ReplyCommitsOn(n, SnapAnswer(OnSnapshot(f, m).node, m));
      }
    }
  }

  lemma {:induction false} RoundsCommitOn(n: NodeState, f: NodeState, p: Id, k: nat)
    requires n.entries != []
    ensures CommitsOn(n, Rounds(n, f, p, k).0)
    decreases k
  {
    if k > 0 {
      RoundCommitsOn(n, f, p);
      var x := Exchange(p)((n, f));
      OneTurn(Exchange(p), (n, f), (x.0, x.1), k - 1, k);
      RoundsCommitOn(x.0, x.1, p, k - 1);
    }
  }

  lemma {:induction false} TurnAfter<S>(step: S -> S, s: S, k: nat)
    ensures Turns(step, s, k + 1) == step(Turns(step, s, k))
    decreases k
  {
    if k > 0 { TurnAfter(step, step(s), k - 1); }
  }

  /** A follower with the leader's whole log passes any request cut from it. */
  lemma WholeLogPasses(f: NodeState, lead: Log, log: Log, m: Msg)
    requires EntriesRel(f.entries, f.snapshotIndex, log) && Indexed(log) && Agree(log, lead, |lead|) && RequestOf(lead, m)
    ensures f.entries != [] && !PrevMissing(f, m) && !PrevConflicts(f, m)
  {
    LastTransparent(f, log);
    TermTransparent(f.entries, f.snapshotIndex, log, m.prevIndex);
  }

  /** A follower in step accepts what the leader sends next, which is nothing new. */
  lemma SyncedAccepts(n: NodeState, f: NodeState, lead: Log, log: Log, p: Id)
    requires Synced(n, f, lead, log, p) && ShipsLog(n, p, |lead|) && n.entries != [] && f.entries != []
    ensures CanReplicate(n, p) && ReplyTo(f, ReplicateTo(n, p, 0)).success
  {
    ReplicatedRequest(n, f, lead, log, p);
    var m := ReplicateTo(n, p, 0);
    FollowerAnswers(f, m);
    WholeLogPasses(Follow(f, m.term, m.src), lead, log, m);
  }

  /** The next request of a leader that is in step carries its commit index to the follower, and changes nothing at the leader. */
  lemma SyncedCommits(n: NodeState, f: NodeState, lead: Log, log: Log, p: Id)
    requires Synced(n, f, lead, log, p) && ShipsLog(n, p, |lead|) && n.entries != [] && f.entries != [] && n.commitIndex <= |lead|
    ensures var (n', f') := Round(n, f, p); n' == n && f'.commitIndex == Max(f.commitIndex, n.commitIndex)
  {
    SyncedAccepts(n, f, lead, log, p);
    ReplicatedRequest(n, f, lead, log, p);
    var m := ReplicateTo(n, p, 0);
    FollowerAnswers(f, m);
    AcceptedIs(f, m);
    var log' := AcceptRound(n, f, lead, log, p);
    LastTransparent(OnAppend(f, m).node, log');
  }

  /**
   From every state of every run in which the leader is not stuck with a peer, repair ends with the peer's commit index at
   the leader's, or already beyond it.
   */
  lemma CommitCatchesUp(run: seq<ClusterState>, steps: seq<Step>, i: nat, v: Id, p: Id) returns (k: nat)
    requires IsRun(run, steps) && i < |run| && v in run[i].nodes && p in run[i].nodes
    requires run[i].nodes[v].role == Leader && p in run[i].nodes[v].cfg.peers
    requires run[i].nodes[p].currentTerm <= run[i].nodes[v].currentTerm && !Stuck(run[i].nodes[v], p)
    ensures var n, f := run[i].nodes[v], run[i].nodes[p]; var (n', f') := Rounds(n, f, p, k);
      k <= Get(n.nextIndex, p) + 2 && n.commitIndex <= n'.commitIndex <= f'.commitIndex
  {
    var n, f := run[i].nodes[v], run[i].nodes[p];
    var lead, log := PairInRun(run, steps, i, v, p);
    CursorsOrdered(run, steps, i, v);
    k := RepairedCommits(n, f, lead, log, p);
  }

  ghost predicate CarriedOver(n: NodeState, f: NodeState, p: Id, k: nat) {
    var (n', f') := Rounds(n, f, p, k);
    n.commitIndex <= n'.commitIndex <= f'.commitIndex
  }

  lemma RepairedCommits(n: NodeState, f: NodeState, lead: Log, log: Log, p: Id) returns (k: nat)
    requires Paired(n, f, lead, log, p) && InRange(n, p, |lead|) && !Stuck(n, p) && n.commitIndex <= |lead|
    ensures k <= Get(n.nextIndex, p) + 2
    ensures CarriedOver(n, f, p, k)
  {
    var h, log' := Converges(n, f, lead, log, p);
    LastTransparent(n, lead);
    k := h + 1;
    LastRound(n, f, lead, log', p, h, k);
  }

  lemma LastRound(n: NodeState, f: NodeState, lead: Log, log': Log, p: Id, h: nat, k: nat)
    requires k == h + 1
    requires n.entries != [] && f.entries != [] && InStepAfter(n, f, lead, log', p, h) && n.commitIndex <= |lead| == LastIndex(n)
    ensures CarriedOver(n, f, p, k)
  {
    RoundsCommitOn(n, f, p, h);
    var (n1, f1) := Rounds(n, f, p, h);
    LastTransparent(f1, log');
    SyncedCommits(n1, f1, lead, log', p);
    TurnAfter(Exchange(p), (n, f), h);
  }

  // ---- A leadership check of a peer in step ----

  /** A peer in step, whatever commit index it is sent, confirms its leader in one request. */
  lemma SyncedConfirms(n: NodeState, f: NodeState, lead: Log, log: Log, p: Id, rid: nat, commit: nat)
    requires Synced(n, f, lead, log, p) && ShipsLog(n, p, |lead|) && n.entries != []
    ensures f.entries != [] && ConfirmTo(n, p, rid, commit).AppendReq?
    ensures var r := ReplyTo(f, ConfirmTo(n, p, rid, commit)); r.success && r.term == n.currentTerm == r.reqTerm && r.src == p
  {
    LastTransparent(f, log);
    var m := ConfirmTo(n, p, rid, commit);
    TermTransparent(n.entries, n.snapshotIndex, lead, Get(n.nextIndex, p) - 1);
    FollowerAnswers(f, m);
    WholeLogPasses(Follow(f, m.term, m.src), lead, log, m);
  }
}
