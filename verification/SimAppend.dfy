/** The AppendEntries handler, up to any point of its storage calls, refines the consensus core. */
module SimAppend {
  import opened JukeboxTypes
  import opened RaftLog
  import opened Storage
  import opened Node
  import opened Cluster
  import opened Consensus
  import opened ConsensusSteps
  import opened ConsensusLogs
  import opened ConsensusSafety
  import opened Relation
  import opened Compaction

  /**
   After the first j storage calls of an outcome, storage is that of a node n' standing for s';
   after all of them n' is the outcome's node and what is sent is true of s'.
   */
  ghost predicate Reached(s: State, v: Id, d: Disk, o: Out, j: nat, s': State, n': NodeState) {
    && Inv(s') && Evolves(s, s', v) && NodeRel(s', v, n') && n'.cfg == o.node.cfg
    && j <= |o.writes| && DiskRel(n', Replay(d, o.writes[..j]), s'.servers[v].log)
    && s.servers[v].commit <= s'.servers[v].commit
    && (j == |o.writes| ==> n' == o.node && MsgsRel(o.sends, s'))
  }

  /** What a handler starts from. */
  ghost predicate Ready(s: State, v: Id, n: NodeState, d: Disk) {
    Inv(s) && "" !in s.servers && NodeRel(s, v, n) && DiskRel(n, d, s.servers[v].log)
  }

  lemma ReadyValid(s: State, v: Id, n: NodeState, d: Disk)
    requires Ready(s, v, n, d)
    ensures n.entries != [] && LastIndex(n) == |s.servers[v].log| && LastTermOf(n) == LastTerm(s.servers[v].log)
    ensures Valid(n)
  {
    assert GoodServer(s, v);
    assert GoodCommit(s, v);
    LastTransparent(n, s.servers[v].log);
    IndexTransparent(n, s.servers[v].log);
  }

  // ---- Observing a higher term ----

  lemma ObserveSim(s: State, v: Id, n: NodeState, d: Disk, term: nat) returns (s': State)
    requires Ready(s, v, n, d)
    ensures Ready(s', v, Observe(n, term), Replay(d, ObserveWrites(n, term)))
    ensures Evolves(s, s', v) && s'.reigns == s.reigns && s'.votes == s.votes && s'.acked == s.acked
    ensures s'.servers[v] == s.servers[v].(term := Max(term, s.servers[v].term))
  {
    if term > n.currentTerm {
      s' := Next(s, Bump(v, term));
      BumpInv(s, v, term);
      NextEvolves(s, Bump(v, term));
      SelfFrame(s, s', v, n, Observe(n, term));
      assert (v, term) in s.votes ==> GoodVote(s, v, term);
      assert Replay(d, ObserveWrites(n, term)) == Do(d, SaveHard(HardState(term, "")));
    } else {
      s' := s;
      EvolvesRefl(s, v);
    }
  }

  /** Giving up a role changes nothing the core knows. */
  lemma FollowSim(s: State, v: Id, n: NodeState, d: Disk, leader: Id)
    requires Ready(s, v, n, d)
    ensures Ready(s, v, n.(role := Follower, leaderId := leader), d)
  {
  }

  // ---- Adopting part of the leader's log ----

  lemma MatchingRooted(reigns: map<nat, Reign>, a: Log, b: Log)
    requires Rooted(reigns, a) && Rooted(reigns, b)
    ensures Matching(a, b)
  {
    forall i | 0 <= i < |a| && i < |b| && a[i].term == b[i].term ensures Agree(a, b, i + 1) {
      assert RootedAt(reigns, a, i) && RootedAt(reigns, b, i);
    }
  }

  /** Node fields that adopting a log leaves alone; the node is a follower throughout. */
  ghost predicate SameButLog(n: NodeState, n': NodeState) {
    && n'.cfg == n.cfg && n'.currentTerm == n.currentTerm && n'.votedFor == n.votedFor
    && n'.role == Follower && n'.ballot == n.ballot && n'.bids == n.bids && n'.pending == n.pending
  }

  lemma AdoptSim(s: State, v: Id, n: NodeState, n': NodeState, log': Log, ack: nat) returns (s': State)
    requires Inv(s) && NodeRel(s, v, n) && SameButLog(n, n')
    requires AdoptOk(s, s.servers[v], log', ack, n'.commitIndex)
    requires n'.snapshotIndex <= n'.lastApplied <= n'.commitIndex
    requires EntriesRel(n'.entries, n'.snapshotIndex, log') && n'.snapshotTerm == TermAtOr0(log', n'.snapshotIndex)
    ensures Inv(s') && Evolves(s, s', v) && NodeRel(s', v, n')
    ensures s'.servers[v].log == log' && s'.reigns == s.reigns && s'.votes == s.votes
    ensures Acked(s', v, n.currentTerm) >= ack && s'.servers[v].commit == n'.commitIndex
  {
    var a := Adopt(v, log', ack, n'.commitIndex);
    s' := Next(s, a);
    AdoptInv(s, a);
    NextEvolves(s, a);
    SelfFrame(s, s', v, n, n');
  }

  /** The server's log and its leader's part at c, past all the server committed. */
  ghost predicate Parted(s: State, v: Id, c: nat) {
    v in s.servers && s.servers[v].term in s.reigns &&
    var leader := s.reigns[s.servers[v].term].log;
    var log := s.servers[v].log;
    && Agree(log, leader, c) && !Agree(log, leader, c + 1) && s.servers[v].commit <= c
    && Matching(log, leader) && GoodLog(s.reigns, log, s.servers[v].term) && GoodLog(s.reigns, leader, s.servers[v].term)
  }

  lemma PartingPoint(s: State, v: Id) returns (c: nat)
    requires Inv(s) && v in s.servers && s.servers[v].term in s.reigns
    ensures Parted(s, v, c)
  {
    var t := s.servers[v].term;
    assert GoodServer(s, v) && GoodReign(s, t);
    CommitInLeader(s, v, t);
    MatchingRooted(s.reigns, s.servers[v].log, s.reigns[t].log);
    c := Common(s.servers[v].log, s.reigns[t].log, s.servers[v].commit);
  }

  lemma TakenOk(s: State, v: Id, c: nat, m: nat, commit: nat)
    requires Parted(s, v, c) && m <= |s.reigns[s.servers[v].term].log|
    requires commit <= |Taken(s.servers[v].log, s.reigns[s.servers[v].term].log, m, m <= c)|
    requires commit > s.servers[v].commit ==>
      && commit <= s.reigns[s.servers[v].term].commit
      && Agree(Taken(s.servers[v].log, s.reigns[s.servers[v].term].log, m, m <= c), s.reigns[s.servers[v].term].log, commit)
    ensures AdoptOk(s, s.servers[v], Taken(s.servers[v].log, s.reigns[s.servers[v].term].log, m, m <= c), m, commit)
  {
    var a := s.servers[v];
    var leader := s.reigns[a.term].log;
    var log' := Taken(a.log, leader, m, m <= c);
    PrefixGood(s.reigns, leader, a.term, m);
    forall k: nat ensures KeptAt(leader, a.log, log', k) { }
  }

  lemma CutOk(s: State, v: Id, c: nat)
    requires Parted(s, v, c) && c < |s.servers[v].log|
    ensures AdoptOk(s, s.servers[v], s.servers[v].log[..c], 0, s.servers[v].commit)
  {
    var a := s.servers[v];
    PrefixGood(s.reigns, a.log, a.term, c);
    forall k: nat ensures KeptAt(s.reigns[a.term].log, a.log, a.log[..c], k) { }
  }

  // ---- The accepting branch ----

  ghost predicate Accepting(s: State, v: Id, n: NodeState, m: Msg) {
    && m.AppendReq? && n.entries != [] && v in s.servers && MsgRel(s, m)
    && m.term == n.currentTerm && n.role == Follower && !PrevMissing(n, m) && !PrevConflicts(n, m)
  }

  /** The consistency check passes only where follower and leader agree up to prevIndex. */
  lemma CheckedAgree(s: State, v: Id, n: NodeState, d: Disk, m: Msg, c: nat)
    requires Ready(s, v, n, d) && Accepting(s, v, n, m) && Parted(s, v, c)
    ensures m.prevIndex <= c
  {
    var leader := s.reigns[m.term].log;
    var log := s.servers[v].log;
    ReadyValid(s, v, n, d);
    TermTransparent(n.entries, n.snapshotIndex, log, m.prevIndex);
    if m.prevIndex > n.snapshotIndex {
      assert log[m.prevIndex - 1].term == leader[m.prevIndex - 1].term;
      assert Agree(log, leader, m.prevIndex);
    }
  }

  function UpTo(m: Msg): nat
    requires m.AppendReq?
  {
    m.prevIndex + |m.entries|
  }

  /** The log after accepting a request whose sender's log the follower's parts from at c. */
  ghost function TakenLog(s: State, v: Id, m: Msg, c: nat): Log
    requires m.AppendReq? && v in s.servers && m.term in s.reigns && UpTo(m) <= |s.reigns[m.term].log|
  {
    Taken(s.servers[v].log, s.reigns[m.term].log, UpTo(m), UpTo(m) <= c)
  }

  lemma AcceptedLog(s: State, v: Id, n: NodeState, m: Msg, c: nat)
    requires NodeRel(s, v, n) && Accepting(s, v, n, m) && Parted(s, v, c) && m.prevIndex <= c
    ensures MergeOk(Merge(n.entries, n.snapshotIndex, m.entries), n.snapshotIndex, s.servers[v].log, s.reigns[m.term].log, c, UpTo(m))
    ensures LastIndex(n.(entries := Merge(n.entries, n.snapshotIndex, m.entries).entries)) == |TakenLog(s, v, m, c)|
  {
    AcceptedMerge(n, s.servers[v].log, s.reigns[m.term].log, c, m);
    AcceptedLast(n, s.servers[v].log, s.reigns[m.term].log, c, m);
  }

  lemma AcceptedMerge(n: NodeState, log: Log, leader: Log, c: nat, m: Msg)
    requires EntriesRel(n.entries, n.snapshotIndex, log) && WellFormed(leader) && Matching(log, leader)
    requires Agree(log, leader, c) && !Agree(log, leader, c + 1) && n.snapshotIndex <= c
    requires m.AppendReq? && SliceOf(leader, m.prevIndex, m.entries) && m.prevIndex <= c
    ensures MergeOk(Merge(n.entries, n.snapshotIndex, m.entries), n.snapshotIndex, log, leader, c, UpTo(m))
  {
    MergeTransparent(n.entries, n.snapshotIndex, log, leader, c, m.prevIndex, UpTo(m));
  }

  lemma AcceptedLast(n: NodeState, log: Log, leader: Log, c: nat, m: Msg)
    requires m.AppendReq? && n.entries != [] && UpTo(m) <= |leader| && WellFormed(log) && WellFormed(leader)
    requires MergeOk(Merge(n.entries, n.snapshotIndex, m.entries), n.snapshotIndex, log, leader, c, UpTo(m))
    ensures LastIndex(n.(entries := Merge(n.entries, n.snapshotIndex, m.entries).entries)) == |Taken(log, leader, UpTo(m), UpTo(m) <= c)|
  {
    var log' := Taken(log, leader, UpTo(m), UpTo(m) <= c);
    assert WellFormed(log');
    LastTransparent(n.(entries := Merge(n.entries, n.snapshotIndex, m.entries).entries), log');
  }

  /** The commit index stays, stays within the request's entries, or goes where the leader has the same term. */
  ghost predicate CommitSafe(s: State, m: Msg, n: NodeState, n': NodeState)
    requires m.AppendReq?
  {
    || n'.commitIndex <= n.commitIndex || n'.commitIndex <= UpTo(m)
    || (m.term in s.reigns && n'.commitIndex <= |s.reigns[m.term].log| &&
        TermOf(n', n'.commitIndex) == Some(TermAt(s.reigns[m.term].log, n'.commitIndex)))
  }

  /** A safe commit index lies where the follower's new log agrees with the leader's. */
  lemma CommitAgrees(s: State, v: Id, n: NodeState, m: Msg, c: nat)
    requires NodeRel(s, v, n) && Accepting(s, v, n, m) && Parted(s, v, c) && m.prevIndex <= c
    requires CommitSafe(s, m, n, AcceptEntries(n, m).node)
    ensures var k := AcceptEntries(n, m).node.commitIndex;
      k <= n.commitIndex || (k <= s.reigns[m.term].commit && Agree(TakenLog(s, v, m, c), s.reigns[m.term].log, k))
  {
    var n' := AcceptEntries(n, m).node;
    AcceptedLog(s, v, n, m, c);
    if n'.commitIndex > n.commitIndex { SafeAgrees(s, v, n', m, c); }
  }

  lemma SafeAgrees(s: State, v: Id, n': NodeState, m: Msg, c: nat)
    requires m.AppendReq? && MsgRel(s, m) && Parted(s, v, c) && m.term == s.servers[v].term
    requires EntriesRel(n'.entries, n'.snapshotIndex, TakenLog(s, v, m, c)) && n'.commitIndex <= |TakenLog(s, v, m, c)|
    requires n'.commitIndex <= UpTo(m) || (n'.commitIndex <= |s.reigns[m.term].log| &&
      TermOf(n', n'.commitIndex) == Some(TermAt(s.reigns[m.term].log, n'.commitIndex)))
    ensures Agree(TakenLog(s, v, m, c), s.reigns[m.term].log, n'.commitIndex)
  {
    var k, leader, log' := n'.commitIndex, s.reigns[m.term].log, TakenLog(s, v, m, c);
    if k > UpTo(m) {
      assert log' == s.servers[v].log;
      TermTransparent(n'.entries, n'.snapshotIndex, log', k);
      assert log'[k - 1].term == leader[k - 1].term;
    }
  }

  lemma AcceptSim(s: State, v: Id, n: NodeState, m: Msg, c: nat) returns (s': State)
    requires Inv(s) && NodeRel(s, v, n) && Accepting(s, v, n, m) && Parted(s, v, c) && m.prevIndex <= c
    requires CommitSafe(s, m, n, AcceptEntries(n, m).node)
    ensures Inv(s') && Evolves(s, s', v) && NodeRel(s', v, AcceptEntries(n, m).node)
    ensures s'.servers[v].log == TakenLog(s, v, m, c)
    ensures Acked(s', v, m.term) >= UpTo(m) && s.servers[v].commit <= s'.servers[v].commit
  {
    AcceptedLog(s, v, n, m, c);
    var n' := AcceptEntries(n, m).node;
    CommitAgrees(s, v, n, m, c);
    TakenOk(s, v, c, UpTo(m), n'.commitIndex);
    s' := AdoptSim(s, v, n, n', TakenLog(s, v, m, c), UpTo(m));
  }

  lemma CutSim(s: State, v: Id, n: NodeState, d: Disk, c: nat) returns (s': State, n': NodeState)
    requires Ready(s, v, n, d) && n.role == Follower && Parted(s, v, c) && c < |s.servers[v].log|
    ensures Inv(s') && Evolves(s, s', v) && NodeRel(s', v, n') && n'.cfg == n.cfg
    ensures DiskRel(n', Do(d, TruncateSuffix(c + 1)), s'.servers[v].log)
    ensures s.servers[v].commit <= s'.servers[v].commit
  {
    n' := n.(entries := n.entries[..c - n.snapshotIndex + 1]);
    EntriesCut(n.entries, n.snapshotIndex, s.servers[v].log, c);
    CutOk(s, v, c);
    CutOnDisk(d.log, n.snapshotIndex, s.servers[v].log, c);
    s' := AdoptSim(s, v, n, n', s.servers[v].log[..c], 0);
  }

  /** Storage after the cut, if any, and the append. */
  lemma MergeOnDisk(d: Disk, snap: nat, log: Log, leader: Log, g: Merged, c: nat, m: nat)
    requires LogOnDisk(d.log, snap, log) && WellFormed(leader) && m <= |leader|
    requires Agree(log, leader, c) && snap <= c && MergeOk(g, snap, log, leader, c, m)
    ensures var ws := g.cuts + (if g.added == [] then [] else [Append(g.added)]);
      && LogOnDisk(Replay(d, ws).log, snap, Taken(log, leader, m, m <= c))
      && Replay(d, ws).hard == d.hard && Replay(d, ws).snap == d.snap
  {
    var ws := g.cuts + (if g.added == [] then [] else [Append(g.added)]);
    if c < m {
      assert log[..c] == leader[..c];
      assert leader[..c] + leader[c..m] == leader[..m];
      if c < |log| {
        CutOnDisk(d.log, snap, log, c);
        var d1 := Do(d, TruncateSuffix(c + 1));
        AppendOnDisk(d1.log, snap, log[..c], leader[c..m]);
        ReplayTwo(d, TruncateSuffix(c + 1), Append(leader[c..m]));
      } else {
        assert log == log[..c];
        assert ws == [Append(leader[c..m])];
        AppendOnDisk(d.log, snap, log, leader[c..m]);
        ReplayOne(d, Append(leader[c..m]));
      }
    } else {
      assert ws == [];
    }
  }

  lemma ReplayOne(d: Disk, w: Write)
    ensures Replay(d, [w]) == Do(d, w)
  {
    assert [w][1..] == [];
  }

  lemma ReplayTwo(d: Disk, a: Write, b: Write)
    ensures Replay(d, [a] + [b]) == Do(Do(d, a), b) && Replay(d, [a, b]) == Do(Do(d, a), b)
  {
    assert [a] + [b] == [a, b] && [a, b][1..] == [b];
    ReplayOne(Do(d, a), b);
  }

  lemma ReplayPrefix(d: Disk, a: seq<Write>, b: seq<Write>, j: nat)
    requires |a| <= j <= |a| + |b|
    ensures Replay(d, (a + b)[..j]) == Replay(Replay(d, a), b[..j - |a|])
  {
    assert (a + b)[..j] == a + b[..j - |a|];
    ReplaySplit(d, a, b[..j - |a|]);
  }

  /** What a section reaches after observing a term, it reaches from before observing it. */
  lemma PointAfter(s: State, s1: State, v: Id, n: NodeState, d: Disk, term: nat, o: Out, j: nat, s': State, n': NodeState)
    requires v in s.servers && Evolves(s, s1, v) && s.servers[v].commit <= s1.servers[v].commit
    requires Reached(s1, v, Replay(d, ObserveWrites(n, term)), o, j, s', n')
    ensures Reached(s, v, d, After(n, term, o), |ObserveWrites(n, term)| + j, s', n')
  {
    ReplayPrefix(d, ObserveWrites(n, term), o.writes, |ObserveWrites(n, term)| + j);
    EvolvesTrans(s, s1, s', v);
  }

  /** Before the first storage call nothing durable has changed. */
  lemma PointZero(s: State, v: Id, n: NodeState, d: Disk, o: Out)
    requires Ready(s, v, n, d) && n.cfg == o.node.cfg
    requires o.writes == [] ==> o.node == n && MsgsRel(o.sends, s)
    ensures Reached(s, v, d, o, 0, s, n)
  {
    EvolvesRefl(s, v);
  }

  lemma AcceptWhole(s: State, v: Id, n: NodeState, d: Disk, m: Msg, c: nat) returns (s': State)
    requires Ready(s, v, n, d) && Accepting(s, v, n, m) && Parted(s, v, c) && m.prevIndex <= c
    requires CommitSafe(s, m, n, AcceptEntries(n, m).node)
    ensures Reached(s, v, d, AcceptEntries(n, m), |AcceptEntries(n, m).writes|, s', AcceptEntries(n, m).node)
  {
    var o := AcceptEntries(n, m);
    s' := AcceptSim(s, v, n, m, c);
    AcceptDisk(s, v, n, d, m, c);
    assert o.writes[..|o.writes|] == o.writes;
  }

  /** Storage once the request is accepted. */
  lemma AcceptDisk(s: State, v: Id, n: NodeState, d: Disk, m: Msg, c: nat)
    requires Ready(s, v, n, d) && Accepting(s, v, n, m) && Parted(s, v, c) && m.prevIndex <= c
    ensures DiskRel(AcceptEntries(n, m).node, Replay(d, AcceptEntries(n, m).writes), TakenLog(s, v, m, c))
  {
    AcceptedLog(s, v, n, m, c);
    MergeOnDisk(d, n.snapshotIndex, s.servers[v].log, s.reigns[m.term].log, Merge(n.entries, n.snapshotIndex, m.entries), c, UpTo(m));
  }

  /** The accepting branch up to its j-th storage call. */
  lemma AcceptPoint(s: State, v: Id, n: NodeState, d: Disk, m: Msg, j: nat) returns (s': State, n': NodeState)
    requires Ready(s, v, n, d) && Accepting(s, v, n, m) && j <= |AcceptEntries(n, m).writes|
    requires CommitSafe(s, m, n, AcceptEntries(n, m).node)
    ensures Reached(s, v, d, AcceptEntries(n, m), j, s', n')
  {
    var o := AcceptEntries(n, m);
    var c := PartingPoint(s, v);
    CheckedAgree(s, v, n, d, m, c);
    if j == |o.writes| {
      s' := AcceptWhole(s, v, n, d, m, c);
      n' := o.node;
    } else if j == 0 {
      s', n' := s, n;
      PointZero(s, v, n, d, o);
    } else {
      s', n' := AcceptCut(s, v, n, d, m, c, j);
    }
  }

  /** The crash strikes between the cut and the append. */
  lemma AcceptCut(s: State, v: Id, n: NodeState, d: Disk, m: Msg, c: nat, j: nat) returns (s': State, n': NodeState)
    requires Ready(s, v, n, d) && Accepting(s, v, n, m) && Parted(s, v, c) && m.prevIndex <= c
    requires 0 < j < |AcceptEntries(n, m).writes|
    ensures Reached(s, v, d, AcceptEntries(n, m), j, s', n')
  {
    AcceptedLog(s, v, n, m, c);
    s', n' := CutSim(s, v, n, d, c);
    assert AcceptEntries(n, m).writes[..j] == [TruncateSuffix(c + 1)];
    ReplayOne(d, TruncateSuffix(c + 1));
  }

  lemma FollowedPoint(s: State, v: Id, n: NodeState, d: Disk, m: Msg, j: nat) returns (s': State, n': NodeState)
    requires Ready(s, v, n, d) && m.AppendReq? && m.dst == v && MsgRel(s, m) && n.entries != []
    requires m.term == n.currentTerm && n.role == Follower
    requires CommitSafe(s, m, n, AppendAsFollower(n, m).node)
    requires j <= |AppendAsFollower(n, m).writes|
    ensures Reached(s, v, d, AppendAsFollower(n, m), j, s', n')
  {
    if PrevMissing(n, m) || PrevConflicts(n, m) {
      s', n' := s, n;
      PointZero(s, v, n, d, AppendAsFollower(n, m));
    } else {
      s', n' := AcceptPoint(s, v, n, d, m, j);
    }
  }

  lemma ObserveFollow(s: State, v: Id, n: NodeState, d: Disk, m: Msg) returns (s': State)
    requires Ready(s, v, n, d) && MsgRel(s, m) && (m.AppendReq? || m.SnapReq?) && m.term >= n.currentTerm
    ensures Ready(s', v, Follow(n, m.term, m.src), Replay(d, ObserveWrites(n, m.term)))
    ensures Evolves(s, s', v) && s'.servers[v].commit == s.servers[v].commit && MsgRel(s', m) && s'.reigns == s.reigns
    ensures s'.servers[v].log == s.servers[v].log
  {
    s' := ObserveSim(s, v, n, d, m.term);
    FollowSim(s', v, Observe(n, m.term), Replay(d, ObserveWrites(n, m.term)), m.src);
    MsgFrame(s, s', v, m);
  }

  lemma AppendLive(s: State, v: Id, n: NodeState, d: Disk, m: Msg, j: nat) returns (s': State, n': NodeState)
    requires Ready(s, v, n, d) && m.AppendReq? && m.dst == v && MsgRel(s, m) && n.entries != []
    requires CommitSafe(s, m, n, OnAppend(n, m).node) && m.term >= n.currentTerm
    requires j <= |AppendAsFollower(Follow(n, m.term, m.src), m).writes|
    ensures Reached(s, v, d, After(n, m.term, AppendAsFollower(Follow(n, m.term, m.src), m)), |ObserveWrites(n, m.term)| + j, s', n')
  {
    var n1 := Follow(n, m.term, m.src);
    var s1 := ObserveFollow(s, v, n, d, m);
    s', n' := FollowedPoint(s1, v, n1, Replay(d, ObserveWrites(n, m.term)), m, j);
    PointAfter(s, s1, v, n, d, m.term, AppendAsFollower(n1, m), j, s', n');
  }

  /** Nothing has happened yet: the request is stale, or the crash struck before its first storage call. */
  lemma AppendBarred(s: State, v: Id, n: NodeState, d: Disk, m: Msg)
    requires Ready(s, v, n, d) && m.AppendReq? && m.dst == v && MsgRel(s, m) && n.entries != []
    requires m.term != n.currentTerm
    ensures Reached(s, v, d, OnAppend(n, m), 0, s, n)
  {
    PointZero(s, v, n, d, OnAppend(n, m));
  }

  /** AppendEntries, cut short after any number of its storage calls. */
  lemma AppendPoint(s: State, v: Id, n: NodeState, d: Disk, m: Msg, j: nat) returns (s': State, n': NodeState)
    requires Ready(s, v, n, d) && m.AppendReq? && m.dst == v && MsgRel(s, m) && n.entries != []
    requires CommitSafe(s, m, n, OnAppend(n, m).node) && j <= |OnAppend(n, m).writes|
    ensures Reached(s, v, d, OnAppend(n, m), j, s', n')
  {
    if m.term < n.currentTerm || j < |ObserveWrites(n, m.term)| {
      s', n' := s, n;
      AppendBarred(s, v, n, d, m);
    } else {
      s', n' := AppendLive(s, v, n, d, m, j - |ObserveWrites(n, m.term)|);
    }
  }

  /** A reply of a higher term: step down, having saved the term. */
  lemma StepDownPoint(s: State, v: Id, n: NodeState, d: Disk, term: nat, j: nat) returns (s': State, n': NodeState)
    requires Ready(s, v, n, d) && term > n.currentTerm && j <= 1
    ensures Reached(s, v, d, Silent(StepDown(n, term), ObserveWrites(n, term)), j, s', n')
  {
    if j == 0 {
      s', n' := s, n;
      PointZero(s, v, n, d, Silent(StepDown(n, term), ObserveWrites(n, term)));
    } else {
      s' := ObserveSim(s, v, n, d, term);
      n' := StepDown(n, term);
      assert ObserveWrites(n, term)[..j] == ObserveWrites(n, term);
    }
  }

  /** A section that writes nothing and stays within the same core state. */
  lemma PointStill(s: State, v: Id, n: NodeState, d: Disk, n': NodeState)
    requires Ready(s, v, n, d) && NodeRel(s, v, n') && n'.cfg == n.cfg
    requires n'.currentTerm == n.currentTerm && n'.votedFor == n.votedFor && n'.snapshotIndex == n.snapshotIndex
    requires n'.snapshotTerm == n.snapshotTerm && n'.snapshotData == n.snapshotData
    ensures Reached(s, v, d, Silent(n', []), 0, s, n')
  {
    EvolvesRefl(s, v);
  }
}
