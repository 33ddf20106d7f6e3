/**
 The commit rule (internal/raft/replication.go): the countdown in advanceCommitLocked against a
 definition that says what it looks for.
 */
module CommitRule {
  import opened JukeboxTypes
  import opened RaftLog
  import opened Storage
  import opened Node

  ghost predicate NoRepeats(peers: seq<Id>) {
    forall i, j :: 0 <= i < j < |peers| ==> peers[i] != peers[j]
  }

  /** The nodes known to hold index k: the leader itself and the peers that acknowledged it. */
  ghost function HoldersOf(n: NodeState, k: nat): set<Id> {
    {n.cfg.id} + Acknowledging(n.cfg.peers, n.matchIndex, k)
  }

  /** An entry of the leader's own term on a quorum. */
  ghost predicate HeldByQuorum(n: NodeState, k: nat) {
    TermOf(n, k) == Some(n.currentTerm) && |HoldersOf(n, k)| >= n.cfg.quorum
  }

  /** The peers that acknowledged k. */
  ghost function Acknowledging(peers: seq<Id>, matchIndex: map<Id, nat>, k: nat): set<Id> {
    set p | p in peers && Get(matchIndex, p) >= k
  }

  lemma AcknowledgingLast(front: seq<Id>, last: Id, matchIndex: map<Id, nat>, k: nat)
    ensures Acknowledging(front + [last], matchIndex, k)
         == Acknowledging(front, matchIndex, k) + (if Get(matchIndex, last) >= k then {last} else {})
  {
  }

  lemma {:induction false} CountIsSize(peers: seq<Id>, matchIndex: map<Id, nat>, k: nat)
    requires NoRepeats(peers)
    ensures CountMatching(peers, matchIndex, k) == |Acknowledging(peers, matchIndex, k)|
    decreases |peers|
  {
    if peers != [] {
      var front, last := peers[..|peers| - 1], peers[|peers| - 1];
      CountIsSize(front, matchIndex, k);
      assert peers == front + [last];
      AcknowledgingLast(front, last, matchIndex, k);
      assert last !in Acknowledging(front, matchIndex, k);
    } else {
      assert Acknowledging(peers, matchIndex, k) == {};
    }
  }

  lemma CountableMeans(n: NodeState, k: nat)
    requires NoRepeats(n.cfg.peers) && n.cfg.id !in n.cfg.peers
    ensures Countable(n, k) <==> HeldByQuorum(n, k)
  {
    CountIsSize(n.cfg.peers, n.matchIndex, k);
    assert n.cfg.id !in Acknowledging(n.cfg.peers, n.matchIndex, k);
  }

  lemma {:induction false} SearchExact(n: NodeState, from: nat)
    requires NoRepeats(n.cfg.peers) && n.cfg.id !in n.cfg.peers
    ensures var r := CommitSearch(n, from);
      && n.commitIndex <= r && (r == n.commitIndex || (r <= from && HeldByQuorum(n, r)))
      && forall k :: n.commitIndex < k <= from && HeldByQuorum(n, k) ==> k <= r
    decreases from
  {
    if from > n.commitIndex {
      CountableMeans(n, from);
      if !Countable(n, from) { SearchExact(n, from - 1); }
    }
  }

  /** k is where the commit index belongs: the greatest own-term index on a quorum, or where it was. */
  ghost predicate CommitBelongs(n: NodeState, k: nat)
    requires n.entries != []
  {
    && n.commitIndex <= k && (k == n.commitIndex || (k <= LastIndex(n) && HeldByQuorum(n, k)))
    && (forall j :: n.commitIndex < j <= LastIndex(n) && HeldByQuorum(n, j) ==> j <= k)
  }

  /** The countdown finds exactly the index that belongs, for every matchIndex map. */
  lemma AdvanceExact(n: NodeState, k: nat)
    requires n.entries != [] && NoRepeats(n.cfg.peers) && n.cfg.id !in n.cfg.peers
    ensures AdvanceCommit(n).commitIndex == k <==> CommitBelongs(n, k)
  {
    SearchExact(n, LastIndex(n));
  }

  /** Learning more from peers never commits less. */
  lemma AdvanceMonotone(n: NodeState, more: map<Id, nat>)
    requires n.entries != [] && NoRepeats(n.cfg.peers) && n.cfg.id !in n.cfg.peers
    requires forall p :: p in n.cfg.peers ==> Get(n.matchIndex, p) <= Get(more, p)
    ensures AdvanceCommit(n).commitIndex <= AdvanceCommit(n.(matchIndex := more)).commitIndex
  {
    var n' := n.(matchIndex := more);
    SearchExact(n, LastIndex(n));
    SearchExact(n', LastIndex(n));
    var k := AdvanceCommit(n).commitIndex;
    SubsetSize(HoldersOf(n, k), HoldersOf(n', k));
    assert HeldByQuorum(n, k) ==> HeldByQuorum(n', k);
  }
}
