/**
 What each handler answers and leaves behind (internal/raft/replication.go, snapshot.go, election.go): the terms learned, the
 consistency check, the first requests of a new leader, the tally of votes and when the log is compacted.
 */
module Handlers {
  import opened JukeboxTypes
  import opened RaftLog
  import opened Storage
  import opened Node
  import opened Mirror
  import opened Cluster
  import opened FreeRuns
  import opened Submits

  // ---- Terms ----

  /** Pre-votes and their answers show no term to adopt. */
  predicate ShowsTerm(m: Msg) {
    (m.VoteReq? || m.VoteReply?) ==> !m.preVote
  }

  lemma VoteReplyTerm(n: NodeState, m: Msg)
    requires m.VoteReply? && !m.preVote && n.entries != []
    ensures OnVoteReply(n, m).node.currentTerm == Max(n.currentTerm, m.term)
    ensures m.term > n.currentTerm ==> OnVoteReply(n, m).node == StepDown(n, m.term)
  {
  }

  lemma AppendTerm(n: NodeState, m: Msg)
    requires m.AppendReq? && n.entries != []
    ensures var n' := OnAppend(n, m).node; n'.currentTerm == Max(n.currentTerm, m.term)
    ensures var n' := OnAppend(n, m).node;
      m.term >= n.currentTerm ==> n'.role == Follower && n'.leaderId == m.src && (m.term > n.currentTerm ==> n'.votedFor == "" && n'.pending == map[])
    ensures m.term < n.currentTerm ==> OnAppend(n, m).node == n
  {
  }

  lemma SnapTerm(n: NodeState, m: Msg)
    requires m.SnapReq?
    ensures var n' := OnSnapshot(n, m).node; n'.currentTerm == Max(n.currentTerm, m.term)
    ensures var n' := OnSnapshot(n, m).node;
      m.term >= n.currentTerm ==> n'.role == Follower && n'.leaderId == m.src && (m.term > n.currentTerm ==> n'.votedFor == "" && n'.pending == map[])
    ensures m.term < n.currentTerm ==> OnSnapshot(n, m).node == n
  {
  }

  lemma ReplyTerm(n: NodeState, m: Msg)
    requires (m.AppendReply? || m.SnapReply?) && n.entries != []
    ensures OnMessage(n, m, true).node.currentTerm == Max(n.currentTerm, m.term)
    ensures m.term > n.currentTerm ==> OnMessage(n, m, true).node == StepDown(n, m.term)
  {
  }

  lemma VoteTerm(n: NodeState, m: Msg, calm: bool)
    requires m.VoteReq? && !m.preVote && n.entries != []
    ensures var n' := OnVote(n, m, calm).node; n'.currentTerm == Max(n.currentTerm, m.term) && (m.term > n.currentTerm ==> n'.role == Follower)
  {
  }

  /** Any message but a pre-vote's brings the node to the sender's term; a higher one leaves it a follower with no waiters. */
  lemma TermLearned(n: NodeState, m: Msg, calm: bool)
    requires ShowsTerm(m) && n.entries != []
    ensures var n' := OnMessage(n, m, calm).node;
      && n'.currentTerm == Max(n.currentTerm, m.term)
      && (m.term > n.currentTerm ==> n'.role == Follower && n'.pending == map[])
  {
    match m {
      case VoteReq(_, _, _, _, _, _) => VoteTerm(n, m, calm); VoteWaiters(n, m, calm);
      case VoteReply(_, _, _, _, _, _) => VoteReplyTerm(n, m);
      case AppendReq(_, _, _, _, _, _, _, _) => AppendTerm(n, m);
      case SnapReq(_, _, _, _, _, _) => SnapTerm(n, m);
      case _ => ReplyTerm(n, m);
    }
  }

  // ---- The consistency check ----

  /** The log has the entry the request builds on, or has compacted it away. */
  ghost predicate BuildsOn(n: NodeState, m: Msg)
    requires m.AppendReq?
  {
    m.prevIndex < n.snapshotIndex || TermOf(n, m.prevIndex) == Some(m.prevTerm)
  }

  /**
   A replication request gets one answer, in the node's new term: a success if and only if the request is current and the log
   has the entry it builds on. The sender of a current request is taken for the leader.
   */
  lemma AppendAnswered(n: NodeState, m: Msg) returns (r: Msg)
    requires m.AppendReq? && Contiguous(n)
    ensures var o := OnAppend(n, m);
      && o.sends == {r} && r.AppendReply? && r.src == n.cfg.id && r.dst == m.src && r.rid == m.rid && r.reqTerm == m.term
      && r.term == o.node.currentTerm && (r.success <==> m.term >= n.currentTerm && BuildsOn(n, m))
      && (m.term >= n.currentTerm ==> o.node.role == Follower && o.node.leaderId == m.src)
      && (m.term < n.currentTerm ==> o.node == n && o.writes == [])
  {
    if m.term < n.currentTerm {
      r := AppendAnswer(n, m, false, 0, 0);
    } else {
      AppendTerm(n, m);
      r := FollowerAnswered(Follow(n, m.term, m.src), m);
    }
  }

  lemma FollowerAnswered(n: NodeState, m: Msg) returns (r: Msg)
    requires m.AppendReq? && Contiguous(n)
    ensures AppendAsFollower(n, m).sends == {r} && AppendAsFollower(n, m).node.currentTerm == n.currentTerm
    ensures r.AppendReply? && r.src == n.cfg.id && r.dst == m.src && r.rid == m.rid && r.reqTerm == m.term && r.term == n.currentTerm
    ensures r.success <==> BuildsOn(n, m)
  {
    if PrevMissing(n, m) {
      r := AppendAnswer(n, m, false, LastIndex(n) + 1, 0);
    } else if PrevConflicts(n, m) {
      var t := if TermOf(n, m.prevIndex).Some? then TermOf(n, m.prevIndex).value else 0;
      r := AppendAnswer(n, m, false, FirstIndexOfTerm(n.entries, t, n.snapshotIndex + 1), t);
    } else {
      r := AppendAnswer(n, m, true, 0, 0);
    }
  }

  /** A snapshot gets one answer, in the node's new term; a current one leaves the node with it or a later one. */
  lemma SnapshotAnswered(n: NodeState, m: Msg)
    requires m.SnapReq?
    ensures var o := OnSnapshot(n, m);
      && o.sends == {SnapReply(n.cfg.id, m.src, m.term, m.lastIndex, o.node.currentTerm)}
      && (m.term >= n.currentTerm ==> o.node.role == Follower && o.node.leaderId == m.src && o.node.snapshotIndex == Max(n.snapshotIndex, m.lastIndex))
      && (m.term < n.currentTerm ==> o.node == n && o.writes == [])
  {
    SnapTerm(n, m);
  }

  // ---- A new leader ----

  /** A new leader's first request to each peer carries just the entry it appended, built on its log as elected. */
  lemma NewLeaderProbes(n: NodeState, p: Id, rid: nat)
    requires Contiguous(n) && n.role != Leader && p in n.cfg.peers
    ensures var n' := BecomeLeader(n).0;
      && CanReplicate(n', p) && n'.role == Leader && n'.leaderId == n.cfg.id
      && var m := ReplicateTo(n', p, rid);
         m.prevIndex == LastIndex(n) && m.prevTerm == LastTermOf(n) && m.entries == [Entry(n.currentTerm, LastIndex(n) + 1, NOOP)]
  {
    var n' := BecomeLeader(n).0;
    var k := LastIndex(n);
    assert Get(n'.nextIndex, p) == k + 1;
    assert n'.entries[k - n.snapshotIndex] == n.entries[|n.entries| - 1];
    assert SliceFrom(n', k + 1) == [Entry(n.currentTerm, k + 1, NOOP)];
  }

  // ---- The tally ----

  /** The reply is one this candidate counts: granted, of the election it is holding. */
  ghost predicate Counts(n: NodeState, m: Msg) {
    && m.VoteReply? && !m.preVote && m.granted && m.term <= n.currentTerm == m.reqTerm
    && n.role == Candidate && n.ballot.Ballot? && n.ballot.term == m.reqTerm
  }

  /** A tally short of the quorum is open; one that reached it has made a leader. */
  ghost predicate TallyOpen(n: NodeState) {
    n.ballot.Ballot? && !n.ballot.won ==> |n.ballot.granted| < n.cfg.quorum
  }

  /** A node becomes leader on a vote reply exactly when the reply counts and completes the quorum of an open tally. */
  lemma TallyIff(n: NodeState, m: Msg)
    requires m.VoteReply? && n.entries != [] && TallyOpen(n)
    ensures var n' := OnVoteReply(n, m).node;
      && TallyOpen(n')
      && (n'.role == Leader && n.role != Leader <==> Counts(n, m) && !n.ballot.won && |n.ballot.granted + {m.src}| >= n.cfg.quorum)
      && (Counts(n, m) ==> n'.ballot.Ballot? && n'.ballot.granted == n.ballot.granted + {m.src})
      && (!Counts(n, m) ==> n'.ballot == n.ballot)
  {
    if Counts(n, m) { CountedVote(n, m); } else { UncountedVote(n, m); }
  }

  lemma CountedVote(n: NodeState, m: Msg)
    requires n.entries != [] && Counts(n, m)
    ensures var n' := OnVoteReply(n, m).node; var granted := n.ballot.granted + {m.src};
      && n'.ballot == Ballot(m.reqTerm, granted, n.ballot.won || |granted| >= n.cfg.quorum) && n'.cfg == n.cfg
      && n'.role == if |granted| >= n.cfg.quorum && !n.ballot.won then Leader else Candidate
  {
  }

  lemma UncountedVote(n: NodeState, m: Msg)
    requires n.entries != [] && m.VoteReply? && !Counts(n, m)
    ensures var n' := OnVoteReply(n, m).node; n'.ballot == n.ballot && n'.cfg == n.cfg && (n'.role == n.role || n'.role == Follower)
  {
  }

  lemma ElectTallyOpen(n: NodeState, bid: Bid)
    requires n.entries != [] && TallyOpen(n)
    ensures TallyOpen(StartElection(n, bid).node)
    ensures n.role != Leader && n.cfg.quorum <= 1 ==> StartElection(n, bid).node.role == Leader
  {
  }

  lemma CallTallyOpen(n: NodeState, call: Call)
    requires CanCall(n, call) && TallyOpen(n)
    ensures TallyOpen(Handle(n, call).node)
  {
    match call {
      case Elect(bid) => ElectTallyOpen(n, bid);
      case Receive(m, calm) => if m.VoteReply? { TallyIff(n, m); } else { BallotStays(n, m, calm); SameConfig(n, m, calm); }
      case _ =>
    }
  }

  lemma SameConfig(n: NodeState, m: Msg, calm: bool)
    requires n.entries != []
    ensures OnMessage(n, m, calm).node.cfg == n.cfg
  {
  }

  /** Over every free run, no tally reaches a quorum without making its candidate leader at once. */
  lemma {:induction false} TalliesOpen(run: seq<ClusterState>, steps: seq<Step>, i: nat, v: Id)
    requires IsFreeRun(run, steps) && i < |run| && v in run[i].nodes
    ensures TallyOpen(run[i].nodes[v])
    decreases i
  {
    if i > 0 {
      assert FreeStep(run, steps, i - 1);
      assert v in run[i - 1].nodes;
      TalliesOpen(run, steps, i - 1, v);
      if steps[i - 1].v == v && steps[i - 1].Act? { CallTallyOpen(run[i - 1].nodes[v], steps[i - 1].call); }
    }
  }

  // ---- Compaction ----

  /**
   After a pass of the apply loop the log above the snapshot is within the threshold or nothing of it is applied; a log that
   was within it, or none of which is applied, is left alone, and what is dropped is exactly what was applied.
   */
  lemma CompactsIff(n: NodeState)
    requires Valid(n)
    ensures var n' := ApplyReady(n).node; var long := 0 < n.cfg.snapshotThreshold < |n.entries| - 1;
      && n'.lastApplied == n.commitIndex && LastIndex(n') == LastIndex(n)
      && n'.snapshotIndex == (if long && n.commitIndex > n.snapshotIndex then n.commitIndex else n.snapshotIndex)
      && (forall k: nat :: n'.snapshotIndex <= k ==> TermOf(n', k) == TermOf(n, k))
      && (n.cfg.snapshotThreshold > 0 ==> |n'.entries| - 1 <= n.cfg.snapshotThreshold || n'.snapshotIndex >= n'.lastApplied)
  {
    var n1 := ApplyLoop(n).node;
    CompactedAt(n1);
    assert ApplyReady(n).node == if ShouldCompact(n1) then Compacted(n1) else n1;
  }

  lemma CompactedAt(n: NodeState)
    requires Contiguous(n) && n.lastApplied <= LastIndex(n)
    ensures ShouldCompact(n) <==> 0 < n.cfg.snapshotThreshold < |n.entries| - 1 && n.lastApplied > n.snapshotIndex
    ensures ShouldCompact(n) ==>
      var n' := Compacted(n);
      && n'.entries != [] && LastIndex(n') == LastIndex(n) && n'.snapshotIndex == n'.lastApplied == n.lastApplied
      && forall k: nat :: n'.snapshotIndex <= k ==> TermOf(n', k) == TermOf(n, k)
  {
  }

  // ---- Who is taken for the leader ----

  /** u led term t at some state up to i. */
  ghost predicate Led(run: seq<ClusterState>, i: nat, u: Id, t: nat) {
    exists h: nat {:trigger LeadsAt(run, h, u, t)} :: h <= i && LeadsAt(run, h, u, t)
  }

  lemma LedLater(run: seq<ClusterState>, i: nat, j: nat, u: Id, t: nat)
    requires Led(run, i, u, t) && i <= j
    ensures Led(run, j, u, t)
  {
    var h: nat :| h <= i && LeadsAt(run, h, u, t);
    assert h <= j && LeadsAt(run, h, u, t);
  }

  lemma RequestSender(n: NodeState, call: Call, m: Msg)
    requires CanCall(n, call) && m in Handle(n, call).sends && (m.AppendReq? || m.SnapReq?)
    ensures m.src == n.cfg.id && Leads(n, m.term)
  {
    match call {
      case Receive(q, calm) => OnlyReplies(n, q, calm, m);
      case _ =>
    }
  }

  /** Replication requests and snapshots come from leaders of their terms. */
  lemma {:induction false} RequestsFromLeaders(run: seq<ClusterState>, steps: seq<Step>, i: nat, m: Msg)
    requires IsFreeRun(run, steps) && i < |run| && m in run[i].msgs && (m.AppendReq? || m.SnapReq?)
    ensures Led(run, i, m.src, m.term)
    decreases i
  {
    if i > 0 {
      var h := i - 1;
      assert FreeStep(run, steps, h);
      if m in run[h].msgs {
        RequestsFromLeaders(run, steps, h, m);
        LedLater(run, h, i, m.src, m.term);
      } else {
        FreeRunInv(run, steps, h);
        assert Placed(run[h], steps[h].v);
        RequestSender(run[h].nodes[steps[h].v], steps[h].call, m);
        assert LeadsAt(run, h, m.src, m.term);
      }
    }
  }

  /** A candidate knows no leader, and a leader is its own. */
  predicate HintFits(n: NodeState) {
    (n.role == Candidate ==> n.leaderId == "") && (n.role == Leader ==> n.leaderId == n.cfg.id)
  }

  lemma MessageHint(n: NodeState, m: Msg, calm: bool)
    requires n.entries != [] && HintFits(n)
    ensures var n' := OnMessage(n, m, calm).node;
      && HintFits(n') && n'.currentTerm >= n.currentTerm
      && (n'.leaderId == n.leaderId || n'.role == Leader || ((m.AppendReq? || m.SnapReq?) && n'.leaderId == m.src && n'.currentTerm == m.term))
  {
    SameConfig(n, m, calm);
    if m.AppendReq? { AppendTerm(n, m); AppendRole(n, m); } else if m.SnapReq? { SnapTerm(n, m); } else { OtherHint(n, m, calm); }
  }

  lemma AppendRole(n: NodeState, m: Msg)
    requires m.AppendReq? && n.entries != []
    ensures OnAppend(n, m).node == n || OnAppend(n, m).node.role == Follower
  {
  }

  lemma OtherHint(n: NodeState, m: Msg, calm: bool)
    requires n.entries != [] && HintFits(n) && !m.AppendReq? && !m.SnapReq?
    ensures var n' := OnMessage(n, m, calm).node;
      HintFits(n') && n'.currentTerm >= n.currentTerm && (n'.leaderId == n.leaderId || n'.role == Leader)
  {
    if m.VoteReq? { VoteHint(n, m, calm); } else if m.VoteReply? { VoteReplyHint(n, m); }
  }

  lemma VoteHint(n: NodeState, m: Msg, calm: bool)
    requires n.entries != [] && HintFits(n) && m.VoteReq?
    ensures var n' := OnVote(n, m, calm).node; HintFits(n') && n'.currentTerm >= n.currentTerm && n'.leaderId == n.leaderId
  {
  }

  lemma VoteReplyHint(n: NodeState, m: Msg)
    requires n.entries != [] && HintFits(n) && m.VoteReply?
    ensures var n' := OnVoteReply(n, m).node; HintFits(n') && n'.currentTerm >= n.currentTerm && (n'.leaderId == n.leaderId || n'.role == Leader)
  {
  }

  lemma CallHint(n: NodeState, call: Call)
    requires CanCall(n, call) && HintFits(n)
    ensures var n' := Handle(n, call).node;
      && HintFits(n') && n'.currentTerm >= n.currentTerm
      && (n'.leaderId in {n.leaderId, ""} || n'.role == Leader
          || (call.Receive? && (call.m.AppendReq? || call.m.SnapReq?) && n'.leaderId == call.m.src && n'.currentTerm == call.m.term))
  {
    match call {
      case Receive(m, calm) => MessageHint(n, m, calm);
      case _ =>
    }
  }

  /** The leader a node names has led a term no later than the node's. */
  ghost predicate HintTrue(run: seq<ClusterState>, i: nat, v: Id)
    requires i < |run| && v in run[i].nodes
  {
    var n := run[i].nodes[v];
    HintFits(n) && (n.leaderId != "" ==> exists t: nat {:trigger Led(run, i, n.leaderId, t)} :: t <= n.currentTerm && Led(run, i, n.leaderId, t))
  }

  lemma HintStands(run: seq<ClusterState>, h: nat, i: nat, v: Id)
    requires h <= i < |run| && v in run[h].nodes && v in run[i].nodes && HintTrue(run, h, v) && HintFits(run[i].nodes[v])
    requires run[i].nodes[v].leaderId in {run[h].nodes[v].leaderId, ""} && run[h].nodes[v].currentTerm <= run[i].nodes[v].currentTerm
    ensures HintTrue(run, i, v)
  {
    var u := run[i].nodes[v].leaderId;
    if u != "" {
      var t: nat :| t <= run[h].nodes[v].currentTerm && Led(run, h, u, t);
      LedLater(run, h, i, u, t);
    }
  }

  /** In every free run the leader a node names is one: itself if it leads, none if it stands, else one of its term or an earlier one. */
  lemma {:induction false} HintsTrue(run: seq<ClusterState>, steps: seq<Step>, i: nat, v: Id)
    requires IsFreeRun(run, steps) && i < |run| && v in run[i].nodes
    ensures HintTrue(run, i, v)
    decreases i
  {
    if i > 0 {
      assert FreeStep(run, steps, i - 1);
      HintsTrue(run, steps, i - 1, v);
      HintStep(run, steps, i - 1, v);
    }
  }

  lemma HintIs(run: seq<ClusterState>, i: nat, v: Id, t: nat)
    requires i < |run| && v in run[i].nodes && HintFits(run[i].nodes[v]) && t <= run[i].nodes[v].currentTerm && Led(run, i, run[i].nodes[v].leaderId, t)
    ensures HintTrue(run, i, v)
  {
  }

  lemma HintStep(run: seq<ClusterState>, steps: seq<Step>, h: nat, v: Id)
    requires IsFreeRun(run, steps) && h < |steps| && FreeStep(run, steps, h) && v in run[h].nodes && HintTrue(run, h, v)
    ensures v in run[h + 1].nodes && HintTrue(run, h + 1, v)
  {
    var n, n' := run[h].nodes[v], run[h + 1].nodes[v];
    if steps[h].v == v && steps[h].Act? {
      var call := steps[h].call;
      CallHint(n, call);
      if n'.leaderId in {n.leaderId, ""} {
        HintStands(run, h, h + 1, v);
      } else if n'.role == Leader {
        FreeRunInv(run, steps, h + 1);
        assert Placed(run[h + 1], v) && LeadsAt(run, h + 1, v, n'.currentTerm);
        HintIs(run, h + 1, v, n'.currentTerm);
      } else {
        RequestsFromLeaders(run, steps, h, call.m);
        LedLater(run, h, h + 1, call.m.src, call.m.term);
        HintIs(run, h + 1, v, n'.currentTerm);
      }
    } else if steps[h].v != v {
      HintStands(run, h, h + 1, v);
    }
  }
}
