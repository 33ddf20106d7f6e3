/** Campaigns, votes, winning, proposing and counting refine the consensus core. */
module SimElect {
  import opened JukeboxTypes
  import opened RaftLog
  import opened Storage
  import opened Node
  import opened Cluster
  import opened Consensus
  import opened ConsensusSteps
  import opened ConsensusLogs
  import opened ConsensusSafety
  import opened Relation
  import opened Compaction
  import opened SimAppend

  // ---- Campaigns ----

  lemma TimeoutSim(s: State, v: Id, n: NodeState, d: Disk) returns (s': State)
    requires Ready(s, v, n, d) && n.entries != [] && n.role != Leader
    ensures Reached(s, v, d, Silent(BeginCampaign(n), []), 0, s', BeginCampaign(n))
  {
    var n' := BeginCampaign(n);
    s' := Next(s, Campaigning(v));
    CampaigningInv(s, v);
    NextEvolves(s, Campaigning(v));
    SelfFrame(s, s', v, n, n'.(bids := n.bids));
    ReadyValid(s, v, n, d);
    var mine := Campaign(s.servers[v].term, s.servers[v].log);
    forall b | b in n'.bids ensures BidAt(s'.servers[v].campaigns, b) {
      if b !in n.bids { assert mine in s'.servers[v].campaigns && BidFor(b, mine); }
    }
  }

  // ---- Votes ----

  lemma VoteInTermPoint(s: State, v: Id, n: NodeState, d: Disk, m: Msg, j: nat) returns (s': State, n': NodeState)
    requires Ready(s, v, n, d) && m.VoteReq? && !m.preVote && m.dst == v && MsgRel(s, m) && n.entries != []
    requires m.term == n.currentTerm && j <= |VoteInTerm(n, m).writes|
    ensures Reached(s, v, d, VoteInTerm(n, m), j, s', n')
  {
    var o := VoteInTerm(n, m);
    if j == 0 && o.writes != [] {
      s', n' := s, n;
      PointZero(s, v, n, d, o);
    } else if o.writes == [] {
      s', n' := s, n;
      PointZero(s, v, n, d, o);
    } else {
      n' := o.node;
      s' := GrantSim(s, v, n, d, m);
      ReplayOne(d, o.writes[0]);
      assert o.writes[..1] == [o.writes[0]];
    }
  }

  lemma GrantSim(s: State, v: Id, n: NodeState, d: Disk, m: Msg) returns (s': State)
    requires Ready(s, v, n, d) && m.VoteReq? && !m.preVote && m.dst == v && MsgRel(s, m) && n.entries != []
    requires m.term == n.currentTerm && VoteInTerm(n, m).writes != []
    ensures Inv(s') && Evolves(s, s', v) && NodeRel(s', v, n.(votedFor := m.src))
    ensures s'.servers[v] == s.servers[v] && (v, m.term) in s'.votes && s'.votes[(v, m.term)].cand == m.src
  {
    ReadyValid(s, v, n, d);
    if (v, m.term) in s.votes {
      s' := s;
      EvolvesRefl(s, v);
      assert GoodVote(s, v, m.term) && GoodVote(s, s.votes[(v, m.term)].cand, m.term);
    } else {
      s' := Next(s, Grant(v, m.src));
      GrantInv(s, v, m.src);
      NextEvolves(s, Grant(v, m.src));
      SelfFrame(s, s', v, n, n.(votedFor := m.src));
    }
  }

  lemma VoteLive(s: State, v: Id, n: NodeState, d: Disk, m: Msg, j: nat) returns (s': State, n': NodeState)
    requires Ready(s, v, n, d) && m.VoteReq? && !m.preVote && m.dst == v && MsgRel(s, m) && n.entries != []
    requires m.term >= n.currentTerm && j <= |VoteInTerm(Observe(n, m.term), m).writes|
    ensures Reached(s, v, d, After(n, m.term, VoteInTerm(Observe(n, m.term), m)), |ObserveWrites(n, m.term)| + j, s', n')
  {
    var s1 := ObserveSim(s, v, n, d, m.term);
    MsgFrame(s, s1, v, m);
    s', n' := VoteInTermPoint(s1, v, Observe(n, m.term), Replay(d, ObserveWrites(n, m.term)), m, j);
    PointAfter(s, s1, v, n, d, m.term, VoteInTerm(Observe(n, m.term), m), j, s', n');
  }

  /** RequestVote, cut short after any number of its storage calls. */
  lemma VotePoint(s: State, v: Id, n: NodeState, d: Disk, m: Msg, calm: bool, j: nat) returns (s': State, n': NodeState)
    requires Ready(s, v, n, d) && m.VoteReq? && m.dst == v && MsgRel(s, m) && n.entries != []
    requires j <= |OnVote(n, m, calm).writes|
    ensures Reached(s, v, d, OnVote(n, m, calm), j, s', n')
  {
    if m.term < n.currentTerm || m.preVote || j < |ObserveWrites(n, m.term)| {
      s', n' := s, n;
      PointZero(s, v, n, d, OnVote(n, m, calm));
    } else {
      s', n' := VoteLive(s, v, n, d, m, j - |ObserveWrites(n, m.term)|);
    }
  }

  // ---- Counting ----

  /** The peers that match up to k, and the leader itself, are among those that acknowledged k. */
  lemma CountIsAckers(s: State, v: Id, n: NodeState, peers: seq<Id>, t: nat, k: nat) returns (who: set<Id>)
    requires forall i, j :: 0 <= i < j < |peers| ==> peers[i] != peers[j]
    requires v !in peers && (forall p :: p in peers ==> p in s.servers) && v in s.servers
    requires Acked(s, v, t) >= k && n.currentTerm == t && (forall p {:trigger MatchAt(s, n, p)} :: MatchAt(s, n, p))
    ensures |who| == 1 + CountMatching(peers, n.matchIndex, k)
    ensures who <= Ackers(s, t, k) && forall u :: u in who ==> u == v || u in peers
  {
    if peers == [] {
      who := {v};
    } else {
      var last := peers[|peers| - 1];
      assert MatchAt(s, n, last);
      var rest := CountIsAckers(s, v, n, peers[..|peers| - 1], t, k);
      who := if Get(n.matchIndex, last) >= k then rest + {last} else rest;
    }
  }

  lemma SearchSound(n: NodeState, from: nat)
    ensures var k := CommitSearch(n, from); n.commitIndex <= k && (k == n.commitIndex || (Countable(n, k) && k <= from))
  {
    if from > n.commitIndex && !Countable(n, from) { SearchSound(n, from - 1); }
  }

  /** The leader's count commits in the core. */
  lemma AdvanceSim(s: State, v: Id, n: NodeState) returns (s': State)
    requires Inv(s) && NodeRel(s, v, n) && n.role == Leader && n.entries != []
    ensures Inv(s') && Evolves(s, s', v) && NodeRel(s', v, AdvanceCommit(n))
    ensures s'.servers[v].log == s.servers[v].log && s.servers[v].commit <= s'.servers[v].commit
    ensures s'.acked == s.acked
  {
    var k := CommitSearch(n, LastIndex(n));
    SearchSound(n, LastIndex(n));
    if k == n.commitIndex {
      s' := s;
      EvolvesRefl(s, v);
    } else {
      CountableCommitted(s, v, n, k);
      s' := Next(s, CommitTo(v, k));
      CommitToInv(s, v, k);
      NextEvolves(s, CommitTo(v, k));
      AdvanceRel(s, s', v, n, k);
    }
  }

  lemma CountableCommitted(s: State, v: Id, n: NodeState, k: nat)
    requires Inv(s) && NodeRel(s, v, n) && n.role == Leader && Countable(n, k) && k > n.commitIndex
    ensures Committed(s, n.currentTerm, k)
  {
    var t := n.currentTerm;
    assert GoodReign(s, t);
    TermTransparent(n.entries, n.snapshotIndex, s.servers[v].log, k);
    var who := CountIsAckers(s, v, n, n.cfg.peers, t, k);
    SubsetSize(who, Ackers(s, t, k));
  }

  lemma AdvanceRel(s: State, s': State, v: Id, n: NodeState, k: nat)
    requires Inv(s) && NodeRel(s, v, n) && n.role == Leader && Enabled(s, CommitTo(v, k)) && s' == Next(s, CommitTo(v, k))
    requires Evolves(s, s', v) && k >= n.commitIndex
    ensures NodeRel(s', v, n.(commitIndex := k))
  {
    SelfFrame(s, s', v, n, n.(commitIndex := k));
  }

  // ---- Winning ----

  /** The new leader before it counts. */
  function Crowned(n: NodeState): NodeState
    requires n.entries != []
  {
    var next := LastIndex(n) + 1;
    n.(role := Leader, leaderId := n.cfg.id,
       nextIndex := map p | p in n.cfg.peers :: next, matchIndex := map p | p in n.cfg.peers :: 0,
       entries := n.entries + [Entry(n.currentTerm, next, NOOP)])
  }

  lemma CrownSim(s: State, v: Id, n: NodeState, d: Disk, voters: set<Id>) returns (s': State)
    requires Ready(s, v, n, d) && n.entries != [] && Enabled(s, Win(v, voters, NOOP))
    requires n.ballot.Ballot? ==> n.ballot.won || n.ballot.term < n.currentTerm
    ensures Inv(s') && Evolves(s, s', v) && NodeRel(s', v, Crowned(n))
    ensures s'.servers[v].log == s.servers[v].log + [Entry(n.currentTerm, LastIndex(n) + 1, NOOP)]
    ensures s'.servers[v].commit == s.servers[v].commit
  {
    s' := Next(s, Win(v, voters, NOOP));
    ReadyValid(s, v, n, d);
    NoOtherLeader(s, v, voters, NOOP);
    WinInv(s, v, voters, NOOP);
    WinEvolves(s, v, voters, NOOP);
    CrownRel(s, s', v, n, voters);
  }

  lemma CrownRel(s: State, s': State, v: Id, n: NodeState, voters: set<Id>)
    requires NodeRel(s, v, n) && n.entries != [] && Enabled(s, Win(v, voters, NOOP)) && s' == Next(s, Win(v, voters, NOOP))
    requires LastIndex(n) == |s.servers[v].log| && Evolves(s, s', v)
    requires n.ballot.Ballot? ==> n.ballot.won || n.ballot.term < n.currentTerm
    requires n.currentTerm !in s.reigns
    ensures NodeRel(s', v, Crowned(n))
  {
    SelfFrame(s, s', v, n, Crowned(n));
    EntriesAppend(n.entries, n.snapshotIndex, s.servers[v].log, Entry(n.currentTerm, LastIndex(n) + 1, NOOP));
  }

  lemma OneOnDisk(s': State, v: Id, n: NodeState, d: Disk, log: Log, e: Entry)
    requires Inv(s') && v in s'.servers && s'.servers[v].log == log + [e] && LogOnDisk(d.log, n.snapshotIndex, log)
    ensures LogOnDisk(Replay(d, [Append([e])]).log, n.snapshotIndex, s'.servers[v].log)
    ensures Replay(d, [Append([e])]).hard == d.hard && Replay(d, [Append([e])]).snap == d.snap
  {
    assert GoodServer(s', v);
    AppendOnDisk(d.log, n.snapshotIndex, log, [e]);
    ReplayOne(d, Append([e]));
  }

  lemma BecomeLeaderSim(s: State, v: Id, n: NodeState, d: Disk, voters: set<Id>) returns (s': State)
    requires Ready(s, v, n, d) && n.entries != [] && n.role != Leader && Enabled(s, Win(v, voters, NOOP))
    requires n.ballot.Ballot? ==> n.ballot.won || n.ballot.term < n.currentTerm
    ensures Inv(s') && Evolves(s, s', v) && NodeRel(s', v, BecomeLeader(n).0)
    ensures DiskRel(BecomeLeader(n).0, Replay(d, BecomeLeader(n).1), s'.servers[v].log)
    ensures s.servers[v].commit <= s'.servers[v].commit
  {
    var s1 := CrownSim(s, v, n, d, voters);
    s' := AdvanceSim(s1, v, Crowned(n));
    EvolvesTrans(s, s1, s', v);
    OneOnDisk(s', v, n, d, s.servers[v].log, Entry(n.currentTerm, LastIndex(n) + 1, NOOP));
  }

  // ---- Standing ----

  function Standing(n: NodeState): NodeState {
    n.(currentTerm := n.currentTerm + 1, role := Candidate, votedFor := n.cfg.id, leaderId := "")
  }

  lemma StandSim(s: State, v: Id, n: NodeState, d: Disk, bid: Bid) returns (s': State)
    requires Ready(s, v, n, d) && bid in n.bids && bid.base == n.currentTerm
    ensures Ready(s', v, Standing(n), Do(d, SaveHard(HardState(n.currentTerm + 1, v))))
    ensures Evolves(s, s', v) && s'.servers[v].commit == s.servers[v].commit
    ensures (v, n.currentTerm + 1) in s'.votes && s'.votes[(v, n.currentTerm + 1)].cand == v
    ensures |s'.votes[(v, n.currentTerm + 1)].claim| == bid.lastIndex && LastTerm(s'.votes[(v, n.currentTerm + 1)].claim) == bid.lastTerm
    ensures n.currentTerm + 1 in s'.reigns ==> s'.reigns[n.currentTerm + 1].leader != v
  {
    var c := StandEnabled(s, v, n, bid);
    s' := Next(s, Stand(v, c));
    StandInv(s, v, c);
    NextEvolves(s, Stand(v, c));
    StandRel(s, s', v, n, c);
  }

  /** The captured claim is there to stand on, and the node leads no term to come. */
  lemma StandEnabled(s: State, v: Id, n: NodeState, bid: Bid) returns (c: Campaign)
    requires Inv(s) && NodeRel(s, v, n) && bid in n.bids && bid.base == n.currentTerm
    ensures Enabled(s, Stand(v, c)) && BidFor(bid, c)
    ensures n.currentTerm + 1 in s.reigns ==> s.reigns[n.currentTerm + 1].leader != v
  {
    assert BidAt(s.servers[v].campaigns, bid);
    c :| c in s.servers[v].campaigns && BidFor(bid, c);
    var t := n.currentTerm + 1;
    assert t in s.reigns ==> GoodReign(s, t);
    assert (v, t) in s.votes ==> GoodVote(s, v, t);
  }

  lemma StandRel(s: State, s': State, v: Id, n: NodeState, c: Campaign)
    requires NodeRel(s, v, n) && Enabled(s, Stand(v, c)) && s' == Next(s, Stand(v, c)) && Evolves(s, s', v)
    requires n.currentTerm + 1 in s.reigns ==> s.reigns[n.currentTerm + 1].leader != v
    ensures NodeRel(s', v, Standing(n))
  {
    SelfFrame(s, s', v, n, Standing(n));
  }

  lemma VoteReqsRel(s: State, v: Id, n: NodeState, bid: Bid)
    requires NodeRel(s, v, n) && (v, n.currentTerm) in s.votes && s.votes[(v, n.currentTerm)].cand == v
    requires |s.votes[(v, n.currentTerm)].claim| == bid.lastIndex && LastTerm(s.votes[(v, n.currentTerm)].claim) == bid.lastTerm
    ensures MsgsRel(VoteReqs(n, bid), s)
  {
  }

  lemma ElectPoint(s: State, v: Id, n: NodeState, d: Disk, bid: Bid, j: nat) returns (s': State, n': NodeState)
    requires Ready(s, v, n, d) && n.entries != [] && bid in n.bids && bid.base == n.currentTerm
    requires j <= |StartElection(n, bid).writes|
    ensures Reached(s, v, d, StartElection(n, bid), j, s', n')
  {
    var o := StartElection(n, bid);
    if j == 0 {
      s', n' := s, n;
      PointZero(s, v, n, d, o);
    } else {
      var s1 := StandSim(s, v, n, d, bid);
      var d1 := Do(d, SaveHard(HardState(n.currentTerm + 1, v)));
      ReplayOne(d, SaveHard(HardState(n.currentTerm + 1, v)));
      if n.cfg.quorum > 1 {
        s', n' := s1, o.node;
        ElectTogether(s, s1, v, n, d, bid, j);
      } else {
        s', n' := ElectAlone(s, s1, v, n, d, bid, j);
      }
    }
  }

  /** A candidate with peers asks them for their votes. */
  lemma ElectTogether(s: State, s1: State, v: Id, n: NodeState, d: Disk, bid: Bid, j: nat)
    requires Evolves(s, s1, v) && s1.servers[v].commit == s.servers[v].commit && n.entries != [] && n.cfg.quorum > 1 && n.cfg.id == v
    requires Ready(s1, v, Standing(n), Do(d, SaveHard(HardState(n.currentTerm + 1, v))))
    requires (v, n.currentTerm + 1) in s1.votes && s1.votes[(v, n.currentTerm + 1)].cand == v
    requires |s1.votes[(v, n.currentTerm + 1)].claim| == bid.lastIndex && LastTerm(s1.votes[(v, n.currentTerm + 1)].claim) == bid.lastTerm
    requires n.currentTerm + 1 in s1.reigns ==> s1.reigns[n.currentTerm + 1].leader != v
    requires 0 < j <= |StartElection(n, bid).writes|
    ensures Reached(s, v, d, StartElection(n, bid), j, s1, StartElection(n, bid).node)
  {
    var o := StartElection(n, bid);
    VoteReqsRel(s1, v, Standing(n), bid);
    ReplayOne(d, SaveHard(HardState(n.currentTerm + 1, v)));
    assert o.writes[..j] == [SaveHard(HardState(n.currentTerm + 1, v))];
  }

  /** A cluster of one elects at once. */
  lemma ElectAlone(s: State, s1: State, v: Id, n: NodeState, d: Disk, bid: Bid, j: nat) returns (s': State, n': NodeState)
    requires Evolves(s, s1, v) && s1.servers[v].commit == s.servers[v].commit && n.entries != [] && n.cfg.quorum <= 1
    requires Ready(s1, v, Standing(n), Do(d, SaveHard(HardState(n.currentTerm + 1, v)))) && n.cfg.id == v
    requires n.ballot.Ballot? ==> n.ballot.term <= n.currentTerm
    requires (v, n.currentTerm + 1) in s1.votes && s1.votes[(v, n.currentTerm + 1)].cand == v
    requires n.currentTerm + 1 in s1.reigns ==> s1.reigns[n.currentTerm + 1].leader != v
    requires 0 < j <= |StartElection(n, bid).writes|
    ensures Reached(s, v, d, StartElection(n, bid), j, s', n')
  {
    var o := StartElection(n, bid);
    var w := SaveHard(HardState(n.currentTerm + 1, v));
    var noop := BecomeLeader(Standing(n)).1;
    assert o.writes == [w] + noop;
    ReplayOne(d, w);
    if j == 1 {
      s', n' := s1, Standing(n);
      assert o.writes[..1] == [w];
    } else {
      assert o.writes[..j] == [w] + noop;
      ReplaySplit(d, [w], noop);
      s' := AloneWins(s, s1, v, n, Do(d, w));
      n' := o.node;
    }
  }

  /** One vote is a quorum. */
  lemma AloneWins(s: State, s1: State, v: Id, n: NodeState, d1: Disk) returns (s': State)
    requires Evolves(s, s1, v) && s1.servers[v].commit == s.servers[v].commit && n.entries != [] && n.cfg.quorum <= 1
    requires Ready(s1, v, Standing(n), d1) && (n.ballot.Ballot? ==> n.ballot.term <= n.currentTerm)
    requires (v, n.currentTerm + 1) in s1.votes && s1.votes[(v, n.currentTerm + 1)].cand == v
    requires n.currentTerm + 1 in s1.reigns ==> s1.reigns[n.currentTerm + 1].leader != v
    ensures Inv(s') && Evolves(s, s', v) && NodeRel(s', v, BecomeLeader(Standing(n)).0)
    ensures DiskRel(BecomeLeader(Standing(n)).0, Replay(d1, BecomeLeader(Standing(n)).1), s'.servers[v].log)
    ensures s.servers[v].commit <= s'.servers[v].commit
  {
    s' := BecomeLeaderSim(s1, v, Standing(n), d1, {v});
    EvolvesTrans(s, s1, s', v);
  }

  // ---- Tallying ----

  lemma VoteReplyPoint(s: State, v: Id, n: NodeState, d: Disk, m: Msg, j: nat) returns (s': State, n': NodeState)
    requires Ready(s, v, n, d) && m.VoteReply? && m.dst == v && MsgRel(s, m) && n.entries != []
    requires j <= |OnVoteReply(n, m).writes|
    ensures Reached(s, v, d, OnVoteReply(n, m), j, s', n')
  {
    var o := OnVoteReply(n, m);
    if !m.preVote && m.term > n.currentTerm {
      s', n' := StepDownPoint(s, v, n, d, m.term, j);
    } else if o.writes == [] {
      s', n' := s, o.node;
      TallyRel(s, v, n, m);
      PointStill(s, v, n, d, o.node);
    } else if j == 0 {
      s', n' := s, n;
      PointZero(s, v, n, d, o);
    } else {
      s' := TallyWins(s, v, n, d, m);
      n' := o.node;
      assert o.writes[..j] == o.writes;
    }
  }

  lemma TallyRel(s: State, v: Id, n: NodeState, m: Msg)
    requires NodeRel(s, v, n) && m.VoteReply? && m.dst == v && MsgRel(s, m) && n.entries != []
    requires (m.preVote || m.term <= n.currentTerm) && OnVoteReply(n, m).writes == []
    ensures NodeRel(s, v, OnVoteReply(n, m).node)
    ensures OnVoteReply(n, m).node == n.(ballot := OnVoteReply(n, m).node.ballot)
  {
  }

  /** A tally that reaches the quorum holds a quorum of this term's votes. */
  lemma TallyEnough(s: State, v: Id, n: NodeState, m: Msg)
    requires Inv(s) && NodeRel(s, v, n) && m.VoteReply? && m.dst == v && MsgRel(s, m) && n.entries != []
    requires !m.preVote && m.term <= n.currentTerm && OnVoteReply(n, m).writes != []
    ensures n.ballot.Ballot? && m.reqTerm == n.currentTerm && n.role == Candidate
    ensures var granted := n.ballot.granted + {m.src};
      && Enabled(s, Win(v, granted, NOOP)) && NodeRel(s, v, n.(ballot := Ballot(m.reqTerm, granted, true)))
      && OnVoteReply(n, m) == Silent(BecomeLeader(n.(ballot := Ballot(m.reqTerm, granted, true))).0,
                                     BecomeLeader(n.(ballot := Ballot(m.reqTerm, granted, true))).1)
  {
    var granted := n.ballot.granted + {m.src};
    forall u | u in granted ensures GrantAt(s, v, n.currentTerm, u) { }
  }

  lemma TallyWins(s: State, v: Id, n: NodeState, d: Disk, m: Msg) returns (s': State)
    requires Ready(s, v, n, d) && m.VoteReply? && m.dst == v && MsgRel(s, m) && n.entries != []
    requires !m.preVote && m.term <= n.currentTerm && OnVoteReply(n, m).writes != []
    ensures Inv(s') && Evolves(s, s', v) && NodeRel(s', v, OnVoteReply(n, m).node)
    ensures DiskRel(OnVoteReply(n, m).node, Replay(d, OnVoteReply(n, m).writes), s'.servers[v].log)
    ensures s.servers[v].commit <= s'.servers[v].commit
  {
    var granted := n.ballot.granted + {m.src};
    var n1 := n.(ballot := Ballot(m.reqTerm, granted, true));
    TallyEnough(s, v, n, m);
    s' := BecomeLeaderSim(s, v, n1, d, granted);
  }
}
