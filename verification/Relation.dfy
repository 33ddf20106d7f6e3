/**
 How a concrete cluster represents a state of the consensus core: a compacted log and its
 storage stand for a whole log, and messages state facts about reigns and votes.
 */
module Relation {
  import opened JukeboxTypes
  import opened RaftLog
  import opened Storage
  import opened Node
  import opened Cluster
  import opened Consensus
  import opened ConsensusSteps
  import opened ConsensusLogs
  import opened ConsensusSafety

  /** Sentinel and suffix stand for the whole log. */
  ghost predicate EntriesRel(entries: seq<Entry>, snap: nat, log: Log) {
    && snap <= |log| && |entries| == |log| - snap + 1
    && entries[0] == Sentinel(snap, TermAt(log, snap))
    && (forall j :: 1 <= j < |entries| ==> entries[j] == log[snap + j - 1])
  }

  ghost predicate StoredAt(stored: map<nat, Entry>, snap: nat, log: Log, i: nat) {
    && (i in stored ==> stored[i].index == i)
    && (i > snap ==> (i in stored <==> i <= |log|) && (i <= |log| ==> stored[i] == log[i - 1]))
  }

  /** Storage holds exactly the entries above the snapshot boundary; below it anything may linger. */
  ghost predicate LogOnDisk(stored: map<nat, Entry>, snap: nat, log: Log) {
    && snap <= |log|
    && (forall i: nat {:trigger StoredAt(stored, snap, log, i)} :: StoredAt(stored, snap, log, i))
  }

  ghost predicate DiskRel(n: NodeState, d: Disk, log: Log) {
    && d.hard == HardState(n.currentTerm, n.votedFor)
    && d.snap == Snapshot(n.snapshotIndex, n.snapshotTerm, n.snapshotData)
    && LogOnDisk(d.log, n.snapshotIndex, log)
  }

  ghost function VoteOf(s: State, v: Id, t: nat): Id {
    if (v, t) in s.votes then s.votes[(v, t)].cand else ""
  }

  ghost predicate CoreRel(s: State, v: Id, n: NodeState)
    requires v in s.servers
  {
    var a := s.servers[v];
    && GoodConfig(s.servers.Keys, v, n.cfg)
    && n.currentTerm == a.term && n.votedFor == VoteOf(s, v, a.term)
    && n.commitIndex == a.commit && n.snapshotIndex <= n.lastApplied <= n.commitIndex
    && n.snapshotTerm == TermAtOr0(a.log, n.snapshotIndex)
    && EntriesRel(n.entries, n.snapshotIndex, a.log)
  }

  function TermAtOr0(log: Log, i: nat): nat {
    if i <= |log| then TermAt(log, i) else 0
  }

  /** matchIndex soundness: what a leader believes replicated was acknowledged in its term. */
  ghost predicate MatchAt(s: State, n: NodeState, p: Id) {
    Get(n.matchIndex, p) <= Acked(s, p, n.currentTerm)
  }

  ghost predicate LeaderRel(s: State, v: Id, n: NodeState) {
    n.role == Leader ==>
      && n.currentTerm in s.reigns && s.reigns[n.currentTerm].leader == v
      && s.reigns[n.currentTerm].commit == n.commitIndex && s.reigns[n.currentTerm].sent <= n.snapshotIndex
      && (forall p {:trigger MatchAt(s, n, p)} :: MatchAt(s, n, p))
  }

  ghost predicate GrantAt(s: State, v: Id, t: nat, u: Id) {
    u in s.servers && (u, t) in s.votes && s.votes[(u, t)].cand == v
  }

  ghost predicate BallotRel(s: State, v: Id, n: NodeState) {
    n.ballot.Ballot? ==>
      && n.ballot.term <= n.currentTerm
      && (forall u {:trigger GrantAt(s, v, n.ballot.term, u)} :: u in n.ballot.granted ==> GrantAt(s, v, n.ballot.term, u))
      && (!n.ballot.won && n.ballot.term in s.reigns ==> s.reigns[n.ballot.term].leader != v)
  }

  ghost predicate BidFor(b: Bid, c: Campaign) {
    b == Bid(c.base, |c.log|, LastTerm(c.log))
  }

  ghost predicate BidAt(campaigns: set<Campaign>, b: Bid) {
    exists c {:trigger BidFor(b, c)} :: c in campaigns && BidFor(b, c)
  }

  ghost predicate BidsRel(s: State, v: Id, n: NodeState)
    requires v in s.servers
  {
    forall b {:trigger BidAt(s.servers[v].campaigns, b)} :: b in n.bids ==> BidAt(s.servers[v].campaigns, b)
  }

  /** A waiter waits for the entry its own proposal put there. */
  ghost predicate WaiterAt(s: State, i: nat, w: Waiter) {
    && w.term in s.reigns && 0 < i <= |s.reigns[w.term].log|
    && s.reigns[w.term].log[i - 1].payload == w.payload
  }

  ghost predicate PendingRel(s: State, n: NodeState) {
    forall i: nat {:trigger WaiterAt(s, i, n.pending[i])} :: i in n.pending ==> WaiterAt(s, i, n.pending[i])
  }

  ghost predicate NodeRel(s: State, v: Id, n: NodeState) {
    && v in s.servers && CoreRel(s, v, n) && LeaderRel(s, v, n) && BallotRel(s, v, n) && BidsRel(s, v, n)
    && PendingRel(s, n)
  }

  /** A slice of a reign's log, as a replication request carries it. */
  ghost predicate SliceOf(log: Log, prev: nat, es: seq<Entry>) {
    prev + |es| <= |log| && es == log[prev..prev + |es|]
  }

  ghost predicate MsgRel(s: State, m: Msg) {
    m.src in s.servers && m.dst in s.servers &&
    match m
    case VoteReq(src, _, term, lastIndex, lastTerm, preVote) =>
      !preVote ==>
        && (src, term) in s.votes && s.votes[(src, term)].cand == src
        && |s.votes[(src, term)].claim| == lastIndex && LastTerm(s.votes[(src, term)].claim) == lastTerm
    case VoteReply(src, dst, reqTerm, preVote, _, granted) =>
      granted && !preVote ==> (src, reqTerm) in s.votes && s.votes[(src, reqTerm)].cand == dst
    case AppendReq(src, _, _, term, prevIndex, prevTerm, entries, leaderCommit) =>
      && term in s.reigns && s.reigns[term].leader == src
      && SliceOf(s.reigns[term].log, prevIndex, entries)
      && prevTerm == TermAt(s.reigns[term].log, prevIndex)
      && leaderCommit <= s.reigns[term].commit
    case AppendReply(src, _, _, reqTerm, prevIndex, count, _, success, _, _) =>
      success ==> Acked(s, src, reqTerm) >= prevIndex + count
    case SnapReq(src, _, term, lastIndex, lastTerm, _) =>
      && term in s.reigns && s.reigns[term].leader == src
      && lastIndex <= s.reigns[term].sent && lastIndex <= s.reigns[term].commit && lastIndex <= |s.reigns[term].log|
      && lastTerm == TermAt(s.reigns[term].log, lastIndex)
    case SnapReply(src, _, reqTerm, lastIndex, term) =>
      term <= reqTerm ==> Acked(s, src, reqTerm) >= lastIndex
  }

  /** An entry some leader announced as committed. */
  ghost predicate EntryCertified(s: State, e: Entry) {
    exists t :: t in s.reigns && 0 < e.index <= s.reigns[t].commit && e.index <= |s.reigns[t].log| &&
                s.reigns[t].log[e.index - 1] == e
  }

  ghost predicate NodesRel(nodes: map<Id, NodeState>, s: State) {
    && nodes.Keys == s.servers.Keys
    && (forall v {:trigger NodeRel(s, v, nodes[v])} :: v in nodes ==> NodeRel(s, v, nodes[v]))
  }

  ghost predicate DiskAt(nodes: map<Id, NodeState>, disks: map<Id, Disk>, s: State, v: Id) {
    v in nodes && v in disks && v in s.servers && DiskRel(nodes[v], disks[v], s.servers[v].log)
  }

  ghost predicate DisksRel(nodes: map<Id, NodeState>, disks: map<Id, Disk>, s: State) {
    && nodes.Keys == s.servers.Keys && disks.Keys == s.servers.Keys
    && (forall v {:trigger DiskAt(nodes, disks, s, v)} :: v in nodes ==> DiskAt(nodes, disks, s, v))
  }

  ghost predicate MsgsRel(msgs: set<Msg>, s: State) {
    forall m {:trigger MsgRel(s, m)} :: m in msgs ==> MsgRel(s, m)
  }

  ghost predicate AppliedRel(applied: set<Entry>, s: State) {
    forall e {:trigger EntryCertified(s, e)} :: e in applied ==> EntryCertified(s, e)
  }

  ghost predicate Rel(c: ClusterState, s: State) {
    && "" !in s.servers && NodesRel(c.nodes, s) && DisksRel(c.nodes, c.disks, s)
    && MsgsRel(c.msgs, s) && AppliedRel(c.applied, s)
  }

  // ---- Frames: what one server does leaves the others' relations standing ----

  lemma MsgFrame(s: State, s': State, v: Id, m: Msg)
    requires Continues(s, s', v) && MsgRel(s, m)
    ensures MsgRel(s', m)
  {
    match m {
      case VoteReq(src, _, term, _, _, _) => assert VoteStands(s, s', v, src, term);
      case VoteReply(src, _, reqTerm, _, _, _) => assert VoteStands(s, s', v, src, reqTerm);
      case AppendReq(_, _, _, term, _, _, _, _) => assert ReignEvolves(s, s', v, term);
      case AppendReply(src, _, _, reqTerm, _, _, _, _, _, _) => assert AckStands(s, s', v, src, reqTerm);
      case SnapReq(_, _, term, _, _, _) => assert ReignEvolves(s, s', v, term);
      case SnapReply(src, _, reqTerm, _, _) => assert AckStands(s, s', v, src, reqTerm);
    }
  }

  lemma EntryFrame(s: State, s': State, v: Id, e: Entry)
    requires Continues(s, s', v) && EntryCertified(s, e)
    ensures EntryCertified(s', e)
  {
    var t :| t in s.reigns && 0 < e.index <= s.reigns[t].commit && e.index <= |s.reigns[t].log| && s.reigns[t].log[e.index - 1] == e;
    assert ReignEvolves(s, s', v, t);
  }

  lemma PendingFrame(s: State, s': State, v: Id, n: NodeState)
    requires Continues(s, s', v) && PendingRel(s, n)
    ensures PendingRel(s', n)
  {
    forall i: nat | i in n.pending ensures WaiterAt(s', i, n.pending[i]) {
      assert WaiterAt(s, i, n.pending[i]);
      assert ReignEvolves(s, s', v, n.pending[i].term);
    }
  }

  lemma MatchFrame(s: State, s': State, v: Id, n: NodeState)
    requires Continues(s, s', v) && forall p {:trigger MatchAt(s, n, p)} :: MatchAt(s, n, p)
    ensures forall p {:trigger MatchAt(s', n, p)} :: MatchAt(s', n, p)
  {
    forall p ensures MatchAt(s', n, p) { assert MatchAt(s, n, p) && AckStands(s, s', v, p, n.currentTerm); }
  }

  lemma BidsFrame(campaigns: set<Campaign>, campaigns': set<Campaign>, n: NodeState)
    requires campaigns <= campaigns' && forall b {:trigger BidAt(campaigns, b)} :: b in n.bids ==> BidAt(campaigns, b)
    ensures forall b {:trigger BidAt(campaigns', b)} :: b in n.bids ==> BidAt(campaigns', b)
  {
    forall b | b in n.bids ensures BidAt(campaigns', b) {
      assert BidAt(campaigns, b);
      var c :| c in campaigns && BidFor(b, c);
      assert c in campaigns' && BidFor(b, c);
    }
  }

  lemma BallotFrame(s: State, s': State, v: Id, u: Id, n: NodeState)
    requires Continues(s, s', v) && BallotRel(s, u, n)
    requires n.ballot.Ballot? && !n.ballot.won && u == v ==> (n.ballot.term in s'.reigns ==> s'.reigns[n.ballot.term].leader != v)
    ensures BallotRel(s', u, n)
  {
    if n.ballot.Ballot? {
      assert NewReign(s, s', v, n.ballot.term);
      assert n.ballot.term in s.reigns ==> ReignEvolves(s, s', v, n.ballot.term);
      forall w | w in n.ballot.granted ensures GrantAt(s', u, n.ballot.term, w) {
        assert GrantAt(s, u, n.ballot.term, w) && VoteStands(s, s', v, w, n.ballot.term);
      }
    }
  }

  /** What an acting server remembers besides its log stays true of the state it moves to. */
  lemma SelfFrame(s: State, s': State, v: Id, n: NodeState, n': NodeState)
    requires Continues(s, s', v) && NodeRel(s, v, n)
    requires n'.ballot == n.ballot && n'.bids == n.bids && n.currentTerm <= n'.currentTerm
    requires n'.pending == n.pending || n'.pending == map[]
    requires n.ballot.Ballot? && !n.ballot.won && n.ballot.term in s'.reigns ==> s'.reigns[n.ballot.term].leader != v
    requires s.servers[v].campaigns <= s'.servers[v].campaigns
    ensures BallotRel(s', v, n') && BidsRel(s', v, n') && PendingRel(s', n')
    ensures n.role == Leader && n'.matchIndex == n.matchIndex && n'.currentTerm == n.currentTerm ==> forall p {:trigger MatchAt(s', n', p)} :: MatchAt(s', n', p)
  {
    PendingFrame(s, s', v, n);
    BallotFrame(s, s', v, v, n);
    BidsFrame(s.servers[v].campaigns, s'.servers[v].campaigns, n);
    forall i: nat | i in n'.pending ensures WaiterAt(s', i, n'.pending[i]) { assert WaiterAt(s', i, n.pending[i]); }
    if n.role == Leader && n'.matchIndex == n.matchIndex && n'.currentTerm == n.currentTerm {
      MatchFrame(s, s', v, n);
      forall p ensures MatchAt(s', n', p) { assert MatchAt(s', n, p); }
    }
  }

  lemma NodeFrame(s: State, s': State, v: Id, u: Id, n: NodeState)
    requires Continues(s, s', v) && NodeRel(s, u, n) && u != v
    ensures NodeRel(s', u, n)
  {
    PendingFrame(s, s', v, n);
    assert ServerStands(s, s', u) && VoteStands(s, s', v, u, n.currentTerm);
    assert n.currentTerm in s.reigns ==> ReignEvolves(s, s', v, n.currentTerm);
    if n.role == Leader { MatchFrame(s, s', v, n); }
    BallotFrame(s, s', v, u, n);
    BidsFrame(s.servers[u].campaigns, s'.servers[u].campaigns, n);
  }

  lemma NodesFrame(nodes: map<Id, NodeState>, s: State, s': State, v: Id, n': NodeState)
    requires NodesRel(nodes, s) && Continues(s, s', v) && NodeRel(s', v, n')
    ensures NodesRel(nodes[v := n'], s')
  {
    var nodes' := nodes[v := n'];
    forall u | u in nodes' ensures NodeRel(s', u, nodes'[u]) {
      if u != v {
        assert NodeRel(s, u, nodes[u]);
        NodeFrame(s, s', v, u, nodes[u]);
      }
    }
  }

  lemma DisksFrame(nodes: map<Id, NodeState>, disks: map<Id, Disk>, s: State, s': State, v: Id, n': NodeState, d': Disk)
    requires DisksRel(nodes, disks, s) && Continues(s, s', v) && DiskRel(n', d', s'.servers[v].log)
    ensures DisksRel(nodes[v := n'], disks[v := d'], s')
  {
    var nodes', disks' := nodes[v := n'], disks[v := d'];
    forall u | u in nodes' ensures DiskAt(nodes', disks', s', u) {
      if u != v { assert DiskAt(nodes, disks, s, u) && ServerStands(s, s', u); }
    }
  }

  lemma MsgsFrame(msgs: set<Msg>, s: State, s': State, v: Id, more: set<Msg>)
    requires MsgsRel(msgs, s) && Continues(s, s', v) && MsgsRel(more, s')
    ensures MsgsRel(msgs + more, s')
  {
    forall m | m in msgs + more ensures MsgRel(s', m) {
      if m in msgs && m !in more { assert MsgRel(s, m); MsgFrame(s, s', v, m); }
    }
  }

  lemma AppliedFrame(applied: set<Entry>, s: State, s': State, v: Id, more: set<Entry>)
    requires AppliedRel(applied, s) && Continues(s, s', v) && AppliedRel(more, s')
    ensures AppliedRel(applied + more, s')
  {
    forall e | e in applied + more ensures EntryCertified(s', e) {
      if e in applied && e !in more { assert EntryCertified(s, e); EntryFrame(s, s', v, e); }
    }
  }

  /** Putting one server's new node, disk and messages back into the cluster. */
  lemma Reassemble(c: ClusterState, s: State, s': State, v: Id, n': NodeState, d': Disk, msgs: set<Msg>, es: set<Entry>, answers: set<Answer>)
    requires Rel(c, s) && Continues(s, s', v)
    requires NodeRel(s', v, n') && DiskRel(n', d', s'.servers[v].log)
    requires MsgsRel(msgs, s') && AppliedRel(es, s')
    ensures Rel(ClusterState(c.nodes[v := n'], c.disks[v := d'], c.msgs + msgs, c.applied + es, answers), s')
  {
    NodesFrame(c.nodes, s, s', v, n');
    DisksFrame(c.nodes, c.disks, s, s', v, n', d');
    MsgsFrame(c.msgs, s, s', v, msgs);
    AppliedFrame(c.applied, s, s', v, es);
  }
}
