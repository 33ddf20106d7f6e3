/**
 The leadership check's heartbeat carries the full commit index and no entries, so a follower
 with a divergent tail commits that tail (internal/raft/readindex.go:87-93 with
 internal/raft/replication.go:242-243): two nodes apply different commands at index 2.
 */
module HeartbeatCommits {
  import opened JukeboxTypes
  import opened JukeboxSpec
  import opened RaftLog
  import opened Storage
  import opened Node
  import opened Cluster
  import opened Scenario

  // ---- A proposes x in term 1; B wins term 2 with C's vote and proposes y ----

  const BID1: Bid := Bid(1, 0, 0)

  function StandingB(s: Setup): NodeState { Voted(s).(role := Candidate, bids := {BID1}) }

  function RunningB(s: Setup): NodeState {
    StandingB(s).(currentTerm := 2, votedFor := s.k.b, ballot := Ballot(2, {s.k.b}, false))
  }

  function VotedC(s: Setup): NodeState { BlankC(s).(currentTerm := 2, votedFor := s.k.b) }

  function LeadingB(s: Setup): NodeState {
    RunningB(s).(role := Leader, leaderId := s.k.b, ballot := Ballot(2, {s.k.b, s.k.c}, true),
                 nextIndex := map[s.k.a := 1, s.k.c := 1], matchIndex := map[s.k.a := 0, s.k.c := 0],
                 entries := [Sentinel(0, 0), Entry(2, 1, NOOP)])
  }

  function ProposedB(s: Setup, y: Payload): NodeState {
    LeadingB(s).(entries := [Sentinel(0, 0), Entry(2, 1, NOOP), Entry(2, 2, y)])
  }

  function AskC(s: Setup): Msg { VoteReq(s.k.b, s.k.c, 2, 0, 0, false) }
  function YesC(s: Setup): Msg { VoteReply(s.k.c, s.k.b, 2, false, 2, true) }

  lemma ProposesY(s: Setup, y: Payload)
    requires Distinct(s.k)
    ensures CanCall(LeadingB(s), Submit(y, false)) && Handle(LeadingB(s), Submit(y, false)).node == ProposedB(s, y)
  {
    Proposes(LeadingB(s), s.k.a, s.k.c, y);
    assert LeadingB(s).entries + [Entry(2, 2, y)] == ProposedB(s, y).entries;
  }

  lemma CampaignsB(s: Setup)
    requires Distinct(s.k)
    ensures CanCall(Voted(s), Timeout) && Handle(Voted(s), Timeout) == Silent(StandingB(s), [])
    ensures CanCall(StandingB(s), Elect(BID1)) && Handle(StandingB(s), Elect(BID1)).node == RunningB(s)
    ensures AskC(s) in Handle(StandingB(s), Elect(BID1)).sends
  {
    assert s.k.c == BlankB(s).cfg.peers[1];
  }

  lemma VotesC(s: Setup)
    requires Distinct(s.k)
    ensures CanCall(BlankC(s), Receive(AskC(s), true)) && Handle(BlankC(s), Receive(AskC(s), true)).node == VotedC(s)
    ensures YesC(s) in Handle(BlankC(s), Receive(AskC(s), true)).sends
  {
  }

  lemma WinsB(s: Setup)
    requires Distinct(s.k)
    ensures CanCall(RunningB(s), Receive(YesC(s), true)) && Handle(RunningB(s), Receive(YesC(s), true)).node == LeadingB(s)
  {
    var k := s.k;
    assert {k.b} + {k.c} == {k.b, k.c};
    TallyWins(RunningB(s), YesC(s), {k.b, k.c});
    Elected(RunningB(s).(ballot := Ballot(2, {k.b, k.c}, true)), k.a, k.c);
  }

  /** A grant that completes the quorum makes a leader. */
  lemma TallyWins(n: NodeState, m: Msg, granted: set<Id>)
    requires n.entries != [] && m.VoteReply? && !m.preVote && m.granted && m.term <= n.currentTerm == m.reqTerm
    requires n.role == Candidate && n.ballot.Ballot? && n.ballot.term == m.reqTerm && !n.ballot.won
    requires granted == n.ballot.granted + {m.src} && |granted| >= n.cfg.quorum
    ensures OnVoteReply(n, m).node == BecomeLeader(n.(ballot := Ballot(m.reqTerm, granted, true))).0
  {
  }

  lemma SecondElection(s: Setup, x: Payload, y: Payload) returns (run: seq<ClusterState>)
    requires Distinct(s.k)
    ensures IsGuardedRun(run) && run != [] && At(s.k, Last(run), Proposed(s, x), ProposedB(s, y), VotedC(s))
  {
    run := FirstElection(s);
    ProposesX(s, x);
    ProposesY(s, y);
    run := MoveA(s.k, run, Leading(s), Voted(s), BlankC(s), Submit(x, false));
    run := SecondVotes(s, Proposed(s, x), run);
    run := MoveB(s.k, run, Proposed(s, x), LeadingB(s), VotedC(s), Submit(y, false));
  }

  lemma SecondVotes(s: Setup, a: NodeState, before: seq<ClusterState>) returns (run: seq<ClusterState>)
    requires Distinct(s.k) && IsGuardedRun(before) && before != [] && At(s.k, Last(before), a, Voted(s), BlankC(s))
    ensures IsGuardedRun(run) && run != [] && At(s.k, Last(run), a, LeadingB(s), VotedC(s))
  {
    CampaignsB(s);
    VotesC(s);
    WinsB(s);
    run := MoveB(s.k, before, a, Voted(s), BlankC(s), Timeout);
    run := MoveB(s.k, run, a, StandingB(s), BlankC(s), Elect(BID1));
    run := MoveC(s.k, run, a, RunningB(s), BlankC(s), Receive(AskC(s), true));
    run := MoveB(s.k, run, a, RunningB(s), VotedC(s), Receive(YesC(s), true));
  }

  // ---- B replicates to C, commits y, and confirms its leadership with A ----

  function Ship(s: Setup, y: Payload): Msg {
    AppendReq(s.k.b, s.k.c, 0, 2, 0, 0, [Entry(2, 1, NOOP), Entry(2, 2, y)], 0)
  }

  function Ack(s: Setup): Msg { AppendReply(s.k.c, s.k.b, 0, 2, 0, 2, 2, true, 0, 0) }

  function TakenC(s: Setup, y: Payload): NodeState {
    VotedC(s).(leaderId := s.k.b, entries := [Sentinel(0, 0), Entry(2, 1, NOOP), Entry(2, 2, y)])
  }

  function CommittedB(s: Setup, y: Payload): NodeState {
    ProposedB(s, y).(commitIndex := 2, matchIndex := map[s.k.a := 0, s.k.c := 2], nextIndex := map[s.k.a := 1, s.k.c := 3])
  }

  function Beat(s: Setup): Msg { AppendReq(s.k.b, s.k.a, 0, 2, 0, 0, [], 2) }

  /** A once it has handled the heartbeat: its own x is now committed. */
  function Misled(s: Setup, x: Payload): NodeState {
    Proposed(s, x).(currentTerm := 2, votedFor := "", role := Follower, leaderId := s.k.b, commitIndex := 2)
  }

  lemma Replicates(s: Setup, y: Payload)
    requires Distinct(s.k)
    ensures CanCall(ProposedB(s, y), Replicate(s.k.c, 0))
    ensures Handle(ProposedB(s, y), Replicate(s.k.c, 0)) == Out(ProposedB(s, y), [], {Ship(s, y)}, [], {})
  {
    var n := ProposedB(s, y);
    assert n.entries[1..] == [Entry(2, 1, NOOP), Entry(2, 2, y)];
    assert s.k.c == n.cfg.peers[1];
  }

  lemma Accepts(s: Setup, y: Payload)
    requires Distinct(s.k)
    ensures CanCall(VotedC(s), Receive(Ship(s, y), true)) && Allowed(VotedC(s), Receive(Ship(s, y), true))
    ensures Handle(VotedC(s), Receive(Ship(s, y), true)).node == TakenC(s, y)
    ensures Ack(s) in Handle(VotedC(s), Receive(Ship(s, y), true)).sends
  {
    MergeTwo(Entry(2, 1, NOOP), Entry(2, 2, y));
  }

  lemma Counts(s: Setup, y: Payload)
    requires Distinct(s.k)
    ensures CanCall(ProposedB(s, y), Receive(Ack(s), true)) && Handle(ProposedB(s, y), Receive(Ack(s), true)).node == CommittedB(s, y)
  {
    var n := ProposedB(s, y).(matchIndex := map[s.k.a := 0, s.k.c := 2], nextIndex := map[s.k.a := 1, s.k.c := 3]);
    assert ProposedB(s, y).matchIndex[s.k.c := 2] == n.matchIndex && ProposedB(s, y).nextIndex[s.k.c := 3] == n.nextIndex;
    CountTwo(s.k.a, s.k.c, n.matchIndex, 2);
    assert Countable(n, 2);
  }

  lemma Confirms(s: Setup, y: Payload)
    requires Distinct(s.k)
    ensures CanCall(CommittedB(s, y), Confirm(s.k.a, 0, 2))
    ensures Handle(CommittedB(s, y), Confirm(s.k.a, 0, 2)) == Out(CommittedB(s, y), [], {Beat(s)}, [], {})
  {
    assert s.k.a == CommittedB(s, y).cfg.peers[0];
  }

  lemma Misleads(s: Setup, x: Payload)
    requires Distinct(s.k)
    ensures CanCall(Proposed(s, x), Receive(Beat(s), true)) && !Allowed(Proposed(s, x), Receive(Beat(s), true))
    ensures Handle(Proposed(s, x), Receive(Beat(s), true)).node == Misled(s, x)
  {
  }

  lemma Conflicting(s: Setup, x: Payload, y: Payload) returns (run: seq<ClusterState>)
    requires Distinct(s.k)
    ensures IsGuardedRun(run) && run != [] && At(s.k, Last(run), Proposed(s, x), CommittedB(s, y), TakenC(s, y))
    ensures Beat(s) in Last(run).msgs
  {
    run := SecondElection(s, x, y);
    Replicates(s, y);
    Accepts(s, y);
    run := MoveB(s.k, run, Proposed(s, x), ProposedB(s, y), VotedC(s), Replicate(s.k.c, 0));
    run := MoveC(s.k, run, Proposed(s, x), ProposedB(s, y), VotedC(s), Receive(Ship(s, y), true));
    Counts(s, y);
    run := MoveB(s.k, run, Proposed(s, x), ProposedB(s, y), TakenC(s, y), Receive(Ack(s), true));
    Confirms(s, y);
    run := MoveB(s.k, run, Proposed(s, x), CommittedB(s, y), TakenC(s, y), Confirm(s.k.a, 0, 2));
  }

  // ---- Both apply ----

  /** An unguarded step of A, the other nodes standing still. */
  lemma FreeA(k: Trio, run: seq<ClusterState>, a: NodeState, b: NodeState, d: NodeState, call: Call) returns (run': seq<ClusterState>)
    requires Distinct(k) && IsAnyRun(run) && At(k, Last(run), a, b, d)
    requires CanCall(a, call) && (call.Receive? ==> call.m in Last(run).msgs)
    ensures IsAnyRun(run') && |run'| == |run| + 1 && run'[..|run|] == run && At(k, Last(run'), Handle(a, call).node, b, d)
    ensures Last(run').applied == Last(run).applied + (set e | e in Handle(a, call).applied)
  {
    var c := MoveFree(run, Act(k.a, call));
    run' := run + [c];
    Placed(k, Last(run), c, a, b, d, k.a, Handle(a, call).node);
  }

  lemma FreeB(k: Trio, run: seq<ClusterState>, a: NodeState, b: NodeState, d: NodeState, call: Call) returns (run': seq<ClusterState>)
    requires Distinct(k) && IsAnyRun(run) && At(k, Last(run), a, b, d)
    requires CanCall(b, call) && (call.Receive? ==> call.m in Last(run).msgs)
    ensures IsAnyRun(run') && |run'| == |run| + 1 && run'[..|run|] == run && At(k, Last(run'), a, Handle(b, call).node, d)
    ensures Last(run').applied == Last(run).applied + (set e | e in Handle(b, call).applied)
  {
    var c := MoveFree(run, Act(k.b, call));
    run' := run + [c];
    Placed(k, Last(run), c, a, b, d, k.b, Handle(b, call).node);
  }

  /** A node with two committed entries applies both. */
  lemma AppliesTwo(n: NodeState, e: Entry, f: Entry)
    requires Valid(n) && n.entries == [Sentinel(0, 0), e, f] && n.snapshotIndex == 0 && n.lastApplied == 0 && n.commitIndex == 2
    ensures CanCall(n, ApplyCommitted) && Handle(n, ApplyCommitted).applied == [e, f]
  {
    var one := ApplyOne(n);
    assert one.applied == [e] && one.node.entries == n.entries;
    var two := ApplyOne(one.node);
    assert two.applied == [f];
    assert ApplyLoop(two.node).applied == [];
    assert ApplyLoop(one.node).applied == [f] + [];
    assert [e] + [f] == [e, f];
  }

  lemma ApplyMisled(s: Setup, x: Payload, b: NodeState, d: NodeState, r: seq<ClusterState>)
    returns (run: seq<ClusterState>, a: NodeState)
    requires Distinct(s.k) && IsAnyRun(r) && At(s.k, Last(r), Proposed(s, x), b, d) && Beat(s) in Last(r).msgs
    ensures IsAnyRun(run) && |run| == |r| + 2 && run[..|r|] == r && Entry(1, 2, x) in Last(run).applied
    ensures At(s.k, Last(run), a, b, d)
  {
    Misleads(s, x);
    AppliesTwo(Misled(s, x), Entry(1, 1, NOOP), Entry(1, 2, x));
    var r1 := FreeA(s.k, r, Proposed(s, x), b, d, Receive(Beat(s), true));
    run := FreeA(s.k, r1, Misled(s, x), b, d, ApplyCommitted);
    a := Handle(Misled(s, x), ApplyCommitted).node;
    assert run[..|r|] == r1[..|r|];
    assert Entry(1, 2, x) == Handle(Misled(s, x), ApplyCommitted).applied[1];
  }

  lemma ApplyCommittedB(s: Setup, y: Payload, a: NodeState, d: NodeState, r: seq<ClusterState>) returns (run: seq<ClusterState>)
    requires Distinct(s.k) && IsAnyRun(r) && At(s.k, Last(r), a, CommittedB(s, y), d)
    ensures IsAnyRun(run) && |run| == |r| + 1 && run[..|r|] == r
    ensures Last(r).applied <= Last(run).applied && Entry(2, 2, y) in Last(run).applied
  {
    AppliesTwo(CommittedB(s, y), Entry(2, 1, NOOP), Entry(2, 2, y));
    run := FreeB(s.k, r, a, CommittedB(s, y), d, ApplyCommitted);
    assert Entry(2, 2, y) == Handle(CommittedB(s, y), ApplyCommitted).applied[1];
  }

  /**
   Without the cap, state machine safety fails: in every three-node cluster there is a run, guarded up to
   its last three steps, in which two nodes apply any two given commands at index 2.
   */
  lemma UncappedHeartbeat(k: Trio, x: Payload, y: Payload) returns (run: seq<ClusterState>)
    requires Distinct(k)
    ensures IsAnyRun(run) && |run| > 3 && IsGuardedRun(run[..|run| - 3])
    ensures Entry(1, 2, x) in Last(run).applied && Entry(2, 2, y) in Last(run).applied
  {
    var s := Setup(k, -1, -1);
    var r := Conflicting(s, x, y);
    Unguard(r);
    assert r != [];
    run := BothApply(s, x, y, r);
    assert run[..|run| - 3] == r;
  }

  /** The misled node commits and applies its own command, and the leader the other. */
  lemma BothApply(s: Setup, x: Payload, y: Payload, r: seq<ClusterState>) returns (run: seq<ClusterState>)
    requires Distinct(s.k) && IsAnyRun(r) && At(s.k, Last(r), Proposed(s, x), CommittedB(s, y), TakenC(s, y)) && Beat(s) in Last(r).msgs
    ensures IsAnyRun(run) && |run| == |r| + 3 && run[..|r|] == r
    ensures Entry(1, 2, x) in Last(run).applied && Entry(2, 2, y) in Last(run).applied
  {
    var r2, a := ApplyMisled(s, x, CommittedB(s, y), TakenC(s, y), r);
    run := ApplyCommittedB(s, y, a, TakenC(s, y), r2);
    assert run[..|r|] == r2[..|r|];
  }
}
