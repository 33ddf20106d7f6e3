/** Counting the answers to a leadership check (internal/raft/readindex.go:47-117). */
module LeadershipCheck {
  import opened JukeboxTypes
  import opened RaftLog
  import opened Storage
  import opened Node

  /** The answer counts: a success that carries no higher term. */
  predicate Confirms(reply: Option<Msg>, term: nat) {
    reply.Some? && reply.value.AppendReply? && reply.value.term <= term && reply.value.success
  }

  function AckCount(replies: seq<Option<Msg>>, term: nat): nat {
    if replies == [] then 0
    else AckCount(replies[..|replies| - 1], term) + (if Confirms(replies[|replies| - 1], term) then 1 else 0)
  }

  /** The positions of the answers that are successes in a term no higher than the one checked. */
  ghost function Successes(replies: seq<Option<Msg>>, term: nat): set<nat> {
    set i: nat | i < |replies| && replies[i].Some? && replies[i].value.AppendReply? && replies[i].value.success && replies[i].value.term <= term
  }

  /** The counter counts just these. */
  lemma {:induction false} AckCountExact(replies: seq<Option<Msg>>, term: nat)
    ensures AckCount(replies, term) == |Successes(replies, term)|
    decreases |replies|
  {
    if replies != [] {
      var k := |replies| - 1;
      AckCountExact(replies[..k], term);
      assert Successes(replies, term) == Successes(replies[..k], term) + (if Confirms(replies[k], term) then {k} else {});
    } else {
      assert Successes(replies, term) == {};
    }
  }

  /** The node after it has seen the answers' terms. */
  function Deposed(n: NodeState, replies: seq<Option<Msg>>, term: nat): NodeState
    requires forall i :: 0 <= i < |replies| ==> replies[i].Some? ==> replies[i].value.AppendReply?
  {
    if replies == [] then n
    else
      var n', r := Deposed(n, replies[..|replies| - 1], term), replies[|replies| - 1];
      if r.Some? && r.value.term > term then Observe(n', r.value.term) else n'
  }

  function DeposedWrites(n: NodeState, replies: seq<Option<Msg>>, term: nat): seq<Write>
    requires forall i :: 0 <= i < |replies| ==> replies[i].Some? ==> replies[i].value.AppendReply?
  {
    if replies == [] then []
    else
      var front, r := replies[..|replies| - 1], replies[|replies| - 1];
      DeposedWrites(n, front, term) +
      (if r.Some? && r.value.term > term then ObserveWrites(Deposed(n, front, term), r.value.term) else [])
  }

  /** No answer shows a term above t. */
  ghost predicate NoneHigher(replies: seq<Option<Msg>>, t: nat) {
    forall i :: 0 <= i < |replies| && replies[i].Some? && replies[i].value.AppendReply? ==> replies[i].value.term <= t
  }

  ghost predicate Shown(replies: seq<Option<Msg>>, t: nat) {
    exists i :: 0 <= i < |replies| && replies[i].Some? && replies[i].value.AppendReply? && replies[i].value.term == t
  }

  /**
   A higher term in any answer deposes the node: it ends a follower, without a vote, in the highest term shown,
   and its storage says so. Otherwise nothing changes.
   */
  lemma {:induction false} DeposedIff(n: NodeState, replies: seq<Option<Msg>>, term: nat, d: Disk)
    requires forall i :: 0 <= i < |replies| ==> replies[i].Some? ==> replies[i].value.AppendReply?
    requires term <= n.currentTerm && d.hard == HardState(n.currentTerm, n.votedFor)
    ensures var n' := Deposed(n, replies, term); var d' := Replay(d, DeposedWrites(n, replies, term));
      && NoneHigher(replies, n'.currentTerm) && d' == d.(hard := HardState(n'.currentTerm, n'.votedFor))
      && (NoneHigher(replies, n.currentTerm) ==> n' == n)
      && (!NoneHigher(replies, n.currentTerm) ==>
            Shown(replies, n'.currentTerm) && n.currentTerm < n'.currentTerm && n'.role == Follower && n'.votedFor == ""
            && n' == n.(currentTerm := n'.currentTerm, votedFor := "", role := Follower, pending := map[]))
    decreases |replies|
  {
    if replies != [] {
      var front, r := replies[..|replies| - 1], replies[|replies| - 1];
      DeposedIff(n, front, term, d);
      DeposedLast(n, front, r, term, d);
      assert replies == front + [r];
      ShownLast(front, r, n.currentTerm);
      ShownLast(front, r, Deposed(n, replies, term).currentTerm);
    }
  }

  lemma ShownLast(front: seq<Option<Msg>>, r: Option<Msg>, t: nat)
    requires r.Some? ==> r.value.AppendReply?
    ensures NoneHigher(front + [r], t) <==> NoneHigher(front, t) && (r.Some? ==> r.value.term <= t)
    ensures Shown(front + [r], t) <==> Shown(front, t) || (r.Some? && r.value.term == t)
  {
    var replies := front + [r];
    assert replies[|front|] == r;
    assert forall i :: 0 <= i < |front| ==> replies[i] == front[i];
  }

  lemma DeposedLast(n: NodeState, front: seq<Option<Msg>>, r: Option<Msg>, term: nat, d: Disk)
    requires forall i :: 0 <= i < |front| ==> front[i].Some? ==> front[i].value.AppendReply?
    requires r.Some? ==> r.value.AppendReply?
    requires term <= n.currentTerm <= Deposed(n, front, term).currentTerm
    ensures var n1, n' := Deposed(n, front, term), Deposed(n, front + [r], term);
      n' == if r.Some? && r.value.term > n1.currentTerm then StepDown(n1, r.value.term) else n1
    ensures var n1, n' := Deposed(n, front, term), Deposed(n, front + [r], term); var d1 := Replay(d, DeposedWrites(n, front, term));
      Replay(d, DeposedWrites(n, front + [r], term)) == if n' == n1 then d1 else d1.(hard := HardState(n'.currentTerm, n'.votedFor))
  {
    var replies := front + [r];
    assert replies[..|replies| - 1] == front;
    var n1 := Deposed(n, front, term);
    var ws := if r.Some? && r.value.term > term then ObserveWrites(n1, r.value.term) else [];
    ReplaySplit(d, DeposedWrites(n, front, term), ws);
  }

  /** The peers whose answers count. */
  ghost function Confirmers(peers: seq<Id>, replies: seq<Option<Msg>>, term: nat): set<Id>
    requires |replies| == |peers|
  {
    set i | 0 <= i < |peers| && Confirms(replies[i], term) :: peers[i]
  }

  lemma ConfirmersLast(peers: seq<Id>, replies: seq<Option<Msg>>, term: nat)
    requires |replies| == |peers| > 0
    ensures var k := |peers| - 1;
      Confirmers(peers, replies, term) ==
        Confirmers(peers[..k], replies[..k], term) + (if Confirms(replies[k], term) then {peers[k]} else {})
  {
    var k := |peers| - 1;
    var all, most := Confirmers(peers, replies, term), Confirmers(peers[..k], replies[..k], term);
    forall p | p in all ensures p in most + (if Confirms(replies[k], term) then {peers[k]} else {}) {
      var i :| 0 <= i < |peers| && Confirms(replies[i], term) && peers[i] == p;
      assert i < k ==> peers[..k][i] == p && Confirms(replies[..k][i], term);
    }
    forall p | p in most ensures p in all {
      var i :| 0 <= i < k && Confirms(replies[..k][i], term) && peers[..k][i] == p;
      assert peers[i] == p && Confirms(replies[i], term);
    }
  }

  /** With one answer per peer, the count is the number of peers that confirm. */
  lemma {:induction false} AckCountIsSize(peers: seq<Id>, replies: seq<Option<Msg>>, term: nat)
    requires |replies| == |peers| && forall i, j :: 0 <= i < j < |peers| ==> peers[i] != peers[j]
    ensures AckCount(replies, term) == |Confirmers(peers, replies, term)|
    decreases |peers|
  {
    if peers != [] {
      var k := |peers| - 1;
      AckCountIsSize(peers[..k], replies[..k], term);
      ConfirmersLast(peers, replies, term);
      assert peers[k] !in Confirmers(peers[..k], replies[..k], term);
    }
  }
}

/** A counted read is a confirmed one. */
module ReadPath {
  import opened JukeboxTypes
  import opened RaftLog
  import opened Storage
  import opened Node
  import opened Cluster
  import opened Relation
  import opened Theorems
  import opened ReadIndex
  import opened LeadershipCheck

  /** The message answers a request v sent p in term t after state c. */
  ghost predicate AnswerSince(c: ClusterState, c': ClusterState, v: Id, p: Id, t: nat, m: Msg) {
    m in c'.msgs && m.AppendReply? && m.src == p && m.dst == v && m.reqTerm == t && !Requested(c.msgs, m)
  }

  /** Each answer received, rejections and higher terms among them, is its peer's to a request sent since c. */
  ghost predicate AnswersSince(c: ClusterState, c': ClusterState, v: Id, replies: seq<Option<Msg>>)
    requires v in c.nodes
  {
    var n := c.nodes[v];
    |replies| == |n.cfg.peers| &&
    forall i :: 0 <= i < |replies| && replies[i].Some? ==> AnswerSince(c, c', v, n.cfg.peers[i], n.currentTerm, replies[i].value)
  }

  lemma CountedIsConfirmed(c: ClusterState, c': ClusterState, v: Id, replies: seq<Option<Msg>>) returns (acks: set<Id>)
    requires v in c.nodes && c.nodes[v].role == Leader && GoodConfig(c.nodes.Keys, v, c.nodes[v].cfg)
    requires AnswersSince(c, c', v, replies) && 1 + |Successes(replies, c.nodes[v].currentTerm)| >= c.nodes[v].cfg.quorum
    ensures LeadershipConfirmed(c, c', v, acks)
  {
    var n := c.nodes[v];
    var others := Confirmers(n.cfg.peers, replies, n.currentTerm);
    AckCountIsSize(n.cfg.peers, replies, n.currentTerm);
    AckCountExact(replies, n.currentTerm);
    assert v !in others;
    acks := others + {v};
    forall p | p in acks && p != v ensures p in c.nodes && exists m :: FreshAck(c, c', v, p, n.currentTerm, m) {
      var i :| 0 <= i < |n.cfg.peers| && Confirms(replies[i], n.currentTerm) && n.cfg.peers[i] == p;
      assert AnswerSince(c, c', v, p, n.currentTerm, replies[i].value);
      assert FreshAck(c, c', v, p, n.currentTerm, replies[i].value);
    }
  }

  /**
   The read path as the code runs it: an index recorded by a leader that has committed in its own term, and enough
   successes in its term among the answers to requests sent since, cover every commit there was when the index was recorded.
   */
  lemma CountedReadCovers(run: seq<ClusterState>, steps: seq<Step>, h: nat, i: nat, j: nat, v: Id, replies: seq<Option<Msg>>, u: Id)
    requires IsRun(run, steps) && h <= i <= j < |run| && u in run[h].nodes && v in run[i].nodes
    requires run[i].nodes[v].role == Leader && OwnTermCommit(run[i].nodes[v])
    requires AnswersSince(run[i], run[j], v, replies)
    requires 1 + |Successes(replies, run[i].nodes[v].currentTerm)| >= run[i].nodes[v].cfg.quorum
    ensures run[h].nodes[u].commitIndex <= run[i].nodes[v].commitIndex
  {
    var s := StateOf(run, steps, i);
    NodeOf(run[i], s, v);
    var acks := CountedIsConfirmed(run[i], run[j], v, replies);
    ReadIndexCovers(run, steps, h, i, j, v, acks, u);
  }
}
