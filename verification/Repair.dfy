/**
 Log repair (internal/raft/replication.go): a leader and one follower exchanging requests
 and replies without interruption end with the follower holding the leader's log.
 */
module Repair {
  import opened JukeboxTypes
  import opened RaftLog
  import opened Storage
  import opened Node
  import opened Relation
  import opened Compaction

  // ---- What the conflict hints mean ----

  /** The first entry of a term that occurs at j lies at or before j. */
  lemma {:induction false} FirstOfTermMeans(entries: seq<Entry>, t: nat, default: nat, j: nat) returns (i: nat)
    requires j < |entries| && entries[j].term == t
    ensures i <= j && entries[i].term == t && FirstIndexOfTerm(entries, t, default) == entries[i].index
    ensures forall h :: 0 <= h < i ==> entries[h].term != t
    decreases |entries|
  {
    if entries[0].term == t {
      i := 0;
    } else {
      var rest := FirstOfTermMeans(entries[1..], t, default, j - 1);
      i := rest + 1;
      forall h | 0 <= h < i ensures entries[h].term != t {
        if h > 0 { assert entries[1..][h - 1] == entries[h]; }
      }
    }
  }

  ghost predicate LastAt(entries: seq<Entry>, t: nat, j: nat) {
    j < |entries| && entries[j].term == t && forall h :: j < h < |entries| ==> entries[h].term != t
  }

  /** The last entry of a term, or nothing when the term does not occur. */
  lemma {:induction false} LastOfTermMeans(entries: seq<Entry>, t: nat)
    ensures (forall h :: 0 <= h < |entries| ==> entries[h].term != t) ==> LastOfTerm(entries, t) == 0
    ensures (exists h :: 0 <= h < |entries| && entries[h].term == t) ==>
      exists j: nat :: LastAt(entries, t, j) && LastOfTerm(entries, t) == entries[j].index
    decreases |entries|
  {
    if entries != [] {
      var k := |entries| - 1;
      var front := entries[..k];
      if entries[k].term == t {
        assert LastAt(entries, t, k);
      } else {
        LastOfTermMeans(front, t);
        if h :| 0 <= h < |entries| && entries[h].term == t {
          assert front[h] == entries[h];
          var j: nat :| LastAt(front, t, j) && LastOfTerm(front, t) == front[j].index;
          forall i | j < i < |entries| ensures entries[i].term != t {
            if i < k { assert front[i] == entries[i]; }
          }
          assert LastAt(entries, t, j);
        }
      }
    }
  }

  // ---- A leader and a follower with their whole logs ----

  /** Entries of one term come from one leader, which only appends. */
  ghost predicate OneLeader(a: Log, b: Log) {
    forall i: nat, j: nat :: i < |a| && j < |b| && a[i].term == b[j].term ==> Agree(a, b, Min(i, j) + 1)
  }

  /** What log matching, commitment and matchIndex soundness give such a pair in every run. */
  ghost predicate Paired(n: NodeState, f: NodeState, lead: Log, log: Log, p: Id) {
    && n.role == Leader && f.currentTerm <= n.currentTerm && p in n.cfg.peers && f.cfg.id == p
    && EntriesRel(n.entries, n.snapshotIndex, lead) && n.snapshotTerm == TermAt(lead, n.snapshotIndex)
    && EntriesRel(f.entries, f.snapshotIndex, log)
    && WellFormed(lead) && WellFormed(log) && OneLeader(lead, log)
    && Agree(log, lead, f.snapshotIndex)
    && (Agree(log, lead, Get(n.matchIndex, p)) || Get(n.matchIndex, p) < n.snapshotIndex)
  }

  ghost predicate RequestOf(lead: Log, m: Msg) {
    m.AppendReq? && m.prevIndex <= |lead| && m.prevTerm == TermAt(lead, m.prevIndex)
  }

  /** An entry of term t at follower index k bounds every leader entry of term t, if the leader differs at k. */
  lemma LastBelow(entries: seq<Entry>, snap: nat, lead: Log, log: Log, k: nat, t: nat)
    requires EntriesRel(entries, snap, lead) && WellFormed(lead) && WellFormed(log) && OneLeader(lead, log)
    requires 0 < k <= |log| && k <= |lead| && TermAt(log, k) == t != TermAt(lead, k)
    ensures LastOfTerm(entries, t) < k
    ensures LastOfTerm(entries, t) > 0 ==> TermAt(lead, LastOfTerm(entries, t)) == t
  {
    LastOfTermMeans(entries, t);
    if h :| 0 <= h < |entries| && entries[h].term == t {
      var j: nat :| LastAt(entries, t, j) && LastOfTerm(entries, t) == entries[j].index;
      var i := snap + j;
      assert entries[j].index == i && (i > 0 ==> TermAt(lead, i) == t);
      forall x: nat | k - 1 <= x < |lead| ensures lead[x].term != t {
        assert lead[x].term == log[k - 1].term ==> Agree(lead, log, k);
      }
    }
  }

  /** Every rejection by a follower of the leader's term sends the leader back, but never below 1. */
  lemma RejectLowers(n: NodeState, f: NodeState, lead: Log, log: Log, p: Id, m: Msg, r: Msg)
    requires Paired(n, f, lead, log, p) && RequestOf(lead, m) && m.term >= f.currentTerm && f.entries != []
    requires r in OnAppend(f, m).sends && r.AppendReply? && !r.success
    ensures 1 <= NextAfterConflict(n, r.conflictIndex, r.conflictTerm) <= m.prevIndex
    ensures n.snapshotIndex <= Get(n.matchIndex, p) <= m.prevIndex ==>
      NextAfterConflict(n, r.conflictIndex, r.conflictTerm) > Get(n.matchIndex, p)
  {
    RejectHints(f, log, m, r);
    if m.prevIndex <= |log| {
      ConflictLowers(n, f, lead, log, p, m.prevIndex);
    }
  }

  /** What a rejection by a follower of the request's term tells. */
  lemma RejectHints(f: NodeState, log: Log, m: Msg, r: Msg)
    requires EntriesRel(f.entries, f.snapshotIndex, log) && WellFormed(log) && m.AppendReq? && m.term >= f.currentTerm && f.entries != []
    requires r in OnAppend(f, m).sends && r.AppendReply? && !r.success
    ensures m.prevIndex > |log| ==> r.conflictTerm == 0 && r.conflictIndex == |log| + 1
    ensures m.prevIndex <= |log| ==>
      && f.snapshotIndex <= m.prevIndex && TermAt(log, m.prevIndex) != m.prevTerm && r.conflictTerm == TermAt(log, m.prevIndex)
      && r.conflictIndex == FirstIndexOfTerm(f.entries, r.conflictTerm, f.snapshotIndex + 1)
  {
    var g := Follow(f, m.term, m.src);
    FollowLooks(f, log, m);
    assert r in AppendAsFollower(g, m).sends;
  }

  /** How a follower's whole log looks to a request's consistency check. */
  lemma FollowLooks(f: NodeState, log: Log, m: Msg)
    requires EntriesRel(f.entries, f.snapshotIndex, log) && WellFormed(log) && m.AppendReq? && f.entries != []
    ensures var g := Follow(f, m.term, m.src);
      && g.entries == f.entries && g.snapshotIndex == f.snapshotIndex && LastIndex(g) == |log|
      && TermOf(g, m.prevIndex) == if f.snapshotIndex <= m.prevIndex <= |log| then Some(TermAt(log, m.prevIndex)) else None
  {
    LastTransparent(f, log);
    TermTransparent(f.entries, f.snapshotIndex, log, m.prevIndex);
  }

  /** Where the leader resumes after the follower hints at term t. */
  function Resumed(n: NodeState, f: NodeState, t: nat): nat {
    NextAfterConflict(n, FirstIndexOfTerm(f.entries, t, f.snapshotIndex + 1), t)
  }

  lemma ConflictLowers(n: NodeState, f: NodeState, lead: Log, log: Log, p: Id, k: nat)
    requires Paired(n, f, lead, log, p) && f.snapshotIndex <= k <= |log| && k <= |lead|
    requires TermAt(log, k) != TermAt(lead, k)
    ensures TermAt(log, k) > 0 && 1 <= Resumed(n, f, TermAt(log, k)) <= k
    ensures n.snapshotIndex <= Get(n.matchIndex, p) <= k ==> Resumed(n, f, TermAt(log, k)) > Get(n.matchIndex, p)
  {
    var t, a := TermAt(log, k), Get(n.matchIndex, p);
    assert f.entries[k - f.snapshotIndex].term == t;
    var i := FirstOfTermMeans(f.entries, t, f.snapshotIndex + 1, k - f.snapshotIndex);
    assert f.entries[i].index == f.snapshotIndex + i;
    LastBelow(n.entries, n.snapshotIndex, lead, log, k, t);
    var first := f.snapshotIndex + i;
    assert TermAt(log, first) == t;
    var last := LastOfTerm(n.entries, t);
    if n.snapshotIndex <= a <= k {
      if first <= a { FirstBelowMatch(n, f, lead, log, p, k, first); }
      else if 0 < last <= a { FirstBelowMatch(n, f, lead, log, p, k, last); }
    }
  }

  /** If the hinted term reaches back to what matches, the leader has it too and resumes above. */
  lemma FirstBelowMatch(n: NodeState, f: NodeState, lead: Log, log: Log, p: Id, k: nat, first: nat)
    requires Paired(n, f, lead, log, p) && n.snapshotIndex <= Get(n.matchIndex, p) <= k <= |log|
    requires 0 < first <= Get(n.matchIndex, p) && TermAt(log, first) == TermAt(log, k)
    ensures LastOfTerm(n.entries, TermAt(log, k)) >= Get(n.matchIndex, p)
  {
    var a := Get(n.matchIndex, p);
    assert log[first - 1].term <= log[a - 1].term <= log[k - 1].term;
    assert TermAt(lead, a) == TermAt(log, k);
    LastReaches(n.entries, n.snapshotIndex, lead, a);
  }

  lemma LastReaches(entries: seq<Entry>, snap: nat, lead: Log, a: nat)
    requires EntriesRel(entries, snap, lead) && WellFormed(lead) && snap <= a <= |lead|
    ensures LastOfTerm(entries, TermAt(lead, a)) >= a
  {
    var t := TermAt(lead, a);
    assert entries[a - snap].term == t;
    LastOfTermMeans(entries, t);
    var j: nat :| LastAt(entries, t, j) && LastOfTerm(entries, t) == entries[j].index;
    assert entries[j].index == snap + j;
  }

  // ---- Rounds of the exchange ----

  /** One uninterrupted round: the leader's request or snapshot, and its handling of the reply. */
  ghost function Round(n: NodeState, f: NodeState, p: Id): (r: (NodeState, NodeState))
    requires n.entries != [] && f.entries != []
    ensures r.0.entries != [] && r.1.entries != []
  {
    if CanReplicate(n, p) then
      var o := OnAppend(f, ReplicateTo(n, p, 0));
      var r := ReplyTo(f, ReplicateTo(n, p, 0));
      (OnAppendReply(n, r).node, o.node)
    else
      var m := SnapshotTo(n, p);
      var o := OnSnapshot(f, m);
      (OnSnapReply(n, SnapAnswer(o.node, m)).node, o.node)
  }

  /** The one reply a replication request gets. */
  ghost function ReplyTo(f: NodeState, m: Msg): (r: Msg)
    requires m.AppendReq? && f.entries != []
    ensures r.AppendReply? && OnAppend(f, m).sends == {r}
  {
    var g := Follow(f, m.term, m.src);
    assert OnAppend(f, m).sends == if m.term < f.currentTerm then {AppendAnswer(f, m, false, 0, 0)} else AppendAsFollower(g, m).sends;
    var t := if TermOf(g, m.prevIndex).Some? then TermOf(g, m.prevIndex).value else 0;
    assert AppendAsFollower(g, m).sends == {AppendAnswer(g, m, true, 0, 0)}
        || AppendAsFollower(g, m).sends == {AppendAnswer(g, m, false, LastIndex(g) + 1, 0)}
        || AppendAsFollower(g, m).sends == {AppendAnswer(g, m, false, FirstIndexOfTerm(g.entries, t, g.snapshotIndex + 1), t)};
    var r :| OnAppend(f, m).sends == {r};
    r
  }

  /** What one round leaves: the follower in the leader's term, both with their logs. */
  ghost predicate AfterRound(n: NodeState, f: NodeState, n': NodeState, f': NodeState, lead: Log, log': Log, p: Id) {
    && Paired(n', f', lead, log', p) && n'.entries == n.entries && n'.snapshotIndex == n.snapshotIndex
    && Get(n.matchIndex, p) <= Get(n'.matchIndex, p) && f'.snapshotIndex <= Max(f.snapshotIndex, n.snapshotIndex)
  }

  ghost predicate Synced(n: NodeState, f: NodeState, lead: Log, log: Log, p: Id) {
    Paired(n, f, lead, log, p) && Agree(log, lead, |lead|) && Get(n.matchIndex, p) >= |lead|
  }

  /** The leader would go on from its log, not from its snapshot. */
  predicate ShipsLog(n: NodeState, p: Id, len: nat) {
    n.snapshotIndex < Get(n.nextIndex, p) <= len + 1
  }

  /** The leader would ship a snapshot that the reply's bookkeeping then ignores, over and over. */
  predicate Stuck(n: NodeState, p: Id) {
    Get(n.nextIndex, p) <= n.snapshotIndex <= Get(n.matchIndex, p)
  }

  predicate InRange(n: NodeState, p: Id, len: nat) {
    1 <= Get(n.nextIndex, p) <= len + 1
  }

  lemma ReplicatedRequest(n: NodeState, f: NodeState, lead: Log, log: Log, p: Id)
    requires Paired(n, f, lead, log, p) && InRange(n, p, |lead|)
    ensures CanReplicate(n, p) <==> Get(n.nextIndex, p) > n.snapshotIndex
    ensures CanReplicate(n, p) ==>
      var m := ReplicateTo(n, p, 0);
      RequestOf(lead, m) && m.prevIndex + 1 == Get(n.nextIndex, p) && m.entries == lead[m.prevIndex..] && m.term == n.currentTerm
  {
    var next := Get(n.nextIndex, p);
    if next > n.snapshotIndex {
      TermTransparent(n.entries, n.snapshotIndex, lead, next - 1);
      SliceTransparent(n, lead, next);
    }
  }

  /** A request that passes the consistency check starts where the logs still agree. */
  lemma PassedAgree(f: NodeState, lead: Log, log: Log, m: Msg)
    requires EntriesRel(f.entries, f.snapshotIndex, log) && WellFormed(log) && WellFormed(lead) && OneLeader(lead, log) && f.entries != []
    requires Agree(log, lead, f.snapshotIndex) && RequestOf(lead, m) && !PrevMissing(f, m) && !PrevConflicts(f, m)
    ensures Agree(log, lead, m.prevIndex)
  {
    var k := m.prevIndex;
    LastTransparent(f, log);
    TermTransparent(f.entries, f.snapshotIndex, log, k);
    assert k > 0 && k >= f.snapshotIndex ==> lead[k - 1].term == log[k - 1].term && Agree(lead, log, k);
  }

  lemma OneLeaderMatches(lead: Log, log: Log)
    requires OneLeader(lead, log)
    ensures Matching(log, lead)
  {
    forall i | 0 <= i < |log| && i < |lead| && log[i].term == lead[i].term ensures Agree(log, lead, i + 1) {
      assert Agree(lead, log, Min(i, i) + 1);
    }
  }

  lemma PrefixOneLeader(lead: Log, k: nat)
    requires WellFormed(lead) && k <= |lead|
    ensures WellFormed(lead[..k]) && OneLeader(lead, lead[..k]) && Agree(lead[..k], lead, k)
  {
  }

  /** An accepted round leaves the follower with the leader's whole log. */
  lemma AcceptSyncs(f: NodeState, lead: Log, log: Log, m: Msg) returns (log': Log)
    requires EntriesRel(f.entries, f.snapshotIndex, log) && WellFormed(log) && WellFormed(lead) && OneLeader(lead, log) && f.entries != []
    requires Agree(log, lead, f.snapshotIndex) && RequestOf(lead, m) && !PrevMissing(f, m) && !PrevConflicts(f, m)
    requires m.entries == lead[m.prevIndex..]
    ensures EntriesRel(AcceptEntries(f, m).node.entries, f.snapshotIndex, log') && Agree(log', lead, |lead|)
    ensures WellFormed(log') && OneLeader(lead, log')
  {
    PassedAgree(f, lead, log, m);
    var c := Common(log, lead, Max(m.prevIndex, f.snapshotIndex));
    OneLeaderMatches(lead, log);
    assert lead[m.prevIndex..] == lead[m.prevIndex..|lead|];
    MergeTransparent(f.entries, f.snapshotIndex, log, lead, c, m.prevIndex, |lead|);
    if |lead| <= c { log' := log; } else { log' := lead[..|lead|]; PrefixOneLeader(lead, |lead|); }
  }

  /** What the leader's bookkeeping does with a current reply. */
  lemma LeaderTakes(n: NodeState, r: Msg)
    requires n.entries != [] && n.role == Leader && r.AppendReply? && r.term <= n.currentTerm == r.reqTerm
    ensures var n' := OnAppendReply(n, r).node;
      && n' == n.(matchIndex := n'.matchIndex, nextIndex := n'.nextIndex, commitIndex := n'.commitIndex)
      && (r.success ==> Get(n'.matchIndex, r.src) == Max(Get(n.matchIndex, r.src), r.prevIndex + r.count))
      && (r.success ==> Get(n'.nextIndex, r.src) == if n'.matchIndex == n.matchIndex then Get(n.nextIndex, r.src) else r.prevIndex + r.count + 1)
      && (!r.success ==> n'.matchIndex == n.matchIndex && Get(n'.nextIndex, r.src) == Max(1, NextAfterConflict(n, r.conflictIndex, r.conflictTerm)))
  {
  }

  /** What a follower at or below the request's term answers. */
  lemma FollowerAnswers(f: NodeState, m: Msg)
    requires m.AppendReq? && f.entries != [] && f.currentTerm <= m.term
    ensures var g := Follow(f, m.term, m.src); var r := ReplyTo(f, m); var f' := OnAppend(f, m).node;
      && g.currentTerm == m.term && g.entries == f.entries && g.snapshotIndex == f.snapshotIndex && g.cfg == f.cfg
      && r.src == f.cfg.id && r.term == r.reqTerm == m.term && r.prevIndex == m.prevIndex && r.count == |m.entries|
      && (r.success <==> !PrevMissing(g, m) && !PrevConflicts(g, m))
      && f' == (if r.success then AcceptEntries(g, m).node else g)
  {
    var g := Follow(f, m.term, m.src);
    assert OnAppend(f, m).sends == AppendAsFollower(g, m).sends;
    assert ReplyTo(f, m) in AppendAsFollower(g, m).sends;
  }

  lemma RejectRound(n: NodeState, f: NodeState, lead: Log, log: Log, p: Id)
    requires Paired(n, f, lead, log, p) && InRange(n, p, |lead|) && CanReplicate(n, p) && n.entries != [] && f.entries != []
    requires !ReplyTo(f, ReplicateTo(n, p, 0)).success
    ensures var (n', f') := Round(n, f, p);
      && AfterRound(n, f, n', f', lead, log, p)
      && 1 <= Get(n'.nextIndex, p) < Get(n.nextIndex, p) && (!Stuck(n, p) ==> !Stuck(n', p))
  {
    var m := ReplicateTo(n, p, 0);
    ReplicatedRequest(n, f, lead, log, p);
    FollowerAnswers(f, m);
    LeaderTakes(n, ReplyTo(f, m));
    RejectLowers(n, f, lead, log, p, m, ReplyTo(f, m));
    MatchBelowNext(n, f, lead, log, p, m);
  }

  /** A rejected request starts above what the leader knows to match. */
  lemma MatchBelowNext(n: NodeState, f: NodeState, lead: Log, log: Log, p: Id, m: Msg)
    requires Paired(n, f, lead, log, p) && RequestOf(lead, m) && f.entries != []
    requires (PrevMissing(f, m) || PrevConflicts(f, m)) && n.snapshotIndex <= m.prevIndex
    ensures Get(n.matchIndex, p) < m.prevIndex
  {
    LastTransparent(f, log);
    TermTransparent(f.entries, f.snapshotIndex, log, m.prevIndex);
  }

  lemma AcceptRound(n: NodeState, f: NodeState, lead: Log, log: Log, p: Id) returns (log': Log)
    requires Paired(n, f, lead, log, p) && InRange(n, p, |lead|) && CanReplicate(n, p) && n.entries != [] && f.entries != []
    requires ReplyTo(f, ReplicateTo(n, p, 0)).success
    ensures var (n', f') := Round(n, f, p); AfterRound(n, f, n', f', lead, log', p) && Synced(n', f', lead, log', p) && ShipsLog(n', p, |lead|)
  {
    var m := ReplicateTo(n, p, 0);
    ReplicatedRequest(n, f, lead, log, p);
    FollowerAnswers(f, m);
    LeaderTakes(n, ReplyTo(f, m));
    log' := AcceptSyncs(Follow(f, m.term, m.src), lead, log, m);
  }

  /** What installing the leader's snapshot leaves of the follower's whole log. */
  lemma SnapshotLeaves(n: NodeState, f: NodeState, lead: Log, log: Log, p: Id) returns (log': Log)
    requires Paired(n, f, lead, log, p)
    ensures var f' := OnSnapshot(f, SnapshotTo(n, p)).node;
      && f'.currentTerm == n.currentTerm && f'.cfg == f.cfg && f'.snapshotIndex == Max(f.snapshotIndex, n.snapshotIndex)
      && EntriesRel(f'.entries, f'.snapshotIndex, log') && Agree(log', lead, f'.snapshotIndex)
    ensures log' == log || (log' == lead[..n.snapshotIndex] && !Agree(log, lead, n.snapshotIndex))
  {
    var m := SnapshotTo(n, p);
    var g := Follow(f, m.term, m.src);
    log' := log;
    if m.lastIndex > g.snapshotIndex { log' := InstallLeaves(g, lead, log, m); }
  }

  lemma InstallLeaves(f: NodeState, lead: Log, log: Log, m: Msg) returns (log': Log)
    requires EntriesRel(f.entries, f.snapshotIndex, log) && WellFormed(log) && WellFormed(lead) && OneLeader(lead, log)
    requires m.SnapReq? && f.snapshotIndex < m.lastIndex <= |lead| && m.lastTerm == TermAt(lead, m.lastIndex)
    ensures EntriesRel(Installed(f, m).entries, m.lastIndex, log') && Agree(log', lead, m.lastIndex)
    ensures log' == log || (log' == lead[..m.lastIndex] && !Agree(log, lead, m.lastIndex))
  {
    var k := m.lastIndex;
    SuffixKeptIff(f, lead, log, m);
    if KeepsSuffix(f, m) {
      SliceTransparent(f, log, k + 1);
      CutEntries(log, k);
      log' := log;
    } else {
      PrefixOneLeader(lead, k);
      CutEntries(lead[..k], k);
      log' := lead[..k];
    }
  }

  lemma SuffixKeptIff(f: NodeState, lead: Log, log: Log, m: Msg)
    requires EntriesRel(f.entries, f.snapshotIndex, log) && WellFormed(log) && WellFormed(lead) && OneLeader(lead, log)
    requires m.SnapReq? && f.snapshotIndex < m.lastIndex <= |lead| && m.lastTerm == TermAt(lead, m.lastIndex)
    ensures KeepsSuffix(f, m) <==> Agree(log, lead, m.lastIndex)
  {
    var k := m.lastIndex;
    TermTransparent(f.entries, f.snapshotIndex, log, k);
    assert k <= |log| && lead[k - 1].term == log[k - 1].term ==> Agree(lead, log, k);
  }

  lemma SnapshotRound(n: NodeState, f: NodeState, lead: Log, log: Log, p: Id) returns (log': Log)
    requires Paired(n, f, lead, log, p) && InRange(n, p, |lead|) && !CanReplicate(n, p) && n.entries != [] && f.entries != []
    ensures var (n', f') := Round(n, f, p);
      && AfterRound(n, f, n', f', lead, log', p)
      && f'.snapshotIndex >= n.snapshotIndex
      && (!Stuck(n, p) ==> Get(n'.nextIndex, p) == n.snapshotIndex + 1)
      && (Stuck(n, p) ==> n' == n && log' == log)
  {
    ReplicatedRequest(n, f, lead, log, p);
    log' := SnapshotLeaves(n, f, lead, log, p);
  }

  /** k turns of a step. */
  ghost function Turns<S>(step: S -> S, s: S, k: nat): S
    decreases k
  {
    if k == 0 then s else Turns(step, step(s), k - 1)
  }

  lemma OneTurn<S>(step: S -> S, s: S, s1: S, rest: nat, k: nat)
    requires k == rest + 1 && step(s) == s1
    ensures Turns(step, s, k) == Turns(step, s1, rest)
  {
  }

  ghost function Exchange(p: Id): ((NodeState, NodeState)) -> (NodeState, NodeState) {
    (x: (NodeState, NodeState)) => if x.0.entries == [] || x.1.entries == [] then x else Round(x.0, x.1, p)
  }

  ghost function Rounds(n: NodeState, f: NodeState, p: Id, k: nat): (NodeState, NodeState) {
    Turns(Exchange(p), (n, f), k)
  }

  /** A follower that has the leader's snapshot accepts the entries after it. */
  lemma SnapshotThenAccepts(n: NodeState, f: NodeState, lead: Log, log: Log, p: Id)
    requires Paired(n, f, lead, log, p) && Get(n.nextIndex, p) == n.snapshotIndex + 1 && f.snapshotIndex >= n.snapshotIndex
    requires n.entries != [] && f.entries != []
    ensures CanReplicate(n, p) && ReplyTo(f, ReplicateTo(n, p, 0)).success
  {
    ReplicatedRequest(n, f, lead, log, p);
    var m := ReplicateTo(n, p, 0);
    LastTransparent(f, log);
    TermTransparent(f.entries, f.snapshotIndex, log, m.prevIndex);
    FollowerAnswers(f, m);
  }

  /** After k rounds the follower is in step, with no snapshot but its own or the leader's. */
  ghost predicate InStepAfter(n: NodeState, f: NodeState, lead: Log, log': Log, p: Id, k: nat)
    requires n.entries != [] && f.entries != []
  {
    var (n', f') := Rounds(n, f, p, k);
    Synced(n', f', lead, log', p) && ShipsLog(n', p, |lead|) && f'.snapshotIndex <= Max(f.snapshotIndex, n.snapshotIndex)
  }

  /** n1 and f1 are what a round leaves. */
  ghost predicate Leads(n: NodeState, f: NodeState, p: Id, n1: NodeState, f1: NodeState) {
    Exchange(p)((n, f)) == (n1, f1)
  }

  /** A rejection leaves the pair as it was, with less to go. */
  ghost predicate Closer(n: NodeState, f: NodeState, lead: Log, log: Log, p: Id, n1: NodeState, f1: NodeState) {
    && Paired(n1, f1, lead, log, p) && InRange(n1, p, |lead|) && !Stuck(n1, p) && Get(n1.nextIndex, p) < Get(n.nextIndex, p)
    && n1.snapshotIndex == n.snapshotIndex && f1.snapshotIndex <= Max(f.snapshotIndex, n.snapshotIndex)
  }

  /** One or two rounds bring the follower in step, or one brings the leader closer. */
  lemma NextRound(n: NodeState, f: NodeState, lead: Log, log: Log, p: Id) returns (k: nat, log': Log, n1: NodeState, f1: NodeState)
    requires Paired(n, f, lead, log, p) && InRange(n, p, |lead|) && !Stuck(n, p) && n.entries != [] && f.entries != []
    ensures k <= 2 && (k > 0 ==> InStepAfter(n, f, lead, log', p, k))
    ensures k == 0 ==> Leads(n, f, p, n1, f1) && Closer(n, f, lead, log, p, n1, f1)
  {
    k, log', n1, f1 := 0, log, Round(n, f, p).0, Round(n, f, p).1;
    if !CanReplicate(n, p) {
      k := 2;
      log' := ConvergesBySnapshot(n, f, lead, log, p);
    } else if ReplyTo(f, ReplicateTo(n, p, 0)).success {
      k := 1;
      log' := ConvergesAtOnce(n, f, lead, log, p);
    } else {
      RejectRound(n, f, lead, log, p);
    }
  }

  /** Unless stuck, the exchange ends with the follower in step, after at most nextIndex + 1 rounds. */
  lemma {:induction false} Converges(n: NodeState, f: NodeState, lead: Log, log: Log, p: Id) returns (k: nat, log': Log)
    requires Paired(n, f, lead, log, p) && InRange(n, p, |lead|) && !Stuck(n, p)
    ensures n.entries != [] && f.entries != [] && k <= Get(n.nextIndex, p) + 1 && InStepAfter(n, f, lead, log', p, k)
    decreases Get(n.nextIndex, p)
  {
    LastTransparent(n, lead);
    LastTransparent(f, log);
    var n1, f1;
    k, log', n1, f1 := NextRound(n, f, lead, log, p);
    if k == 0 {
      var rest;
      rest, log' := Converges(n1, f1, lead, log, p);
      k := rest + 1;
      OneMoreRound(n, f, n1, f1, lead, log', p, rest, k);
    }
  }

  /** A round, and then k more. */
  lemma OneMoreRound(n: NodeState, f: NodeState, n1: NodeState, f1: NodeState, lead: Log, log': Log, p: Id, rest: nat, k: nat)
    requires k == rest + 1
    requires n.entries != [] && f.entries != [] && n1.entries != [] && f1.entries != [] && Leads(n, f, p, n1, f1)
    requires n1.snapshotIndex == n.snapshotIndex && f1.snapshotIndex <= Max(f.snapshotIndex, n.snapshotIndex)
    requires InStepAfter(n1, f1, lead, log', p, rest)
    ensures InStepAfter(n, f, lead, log', p, k)
  {
    OneTurn(Exchange(p), (n, f), (n1, f1), rest, k);
  }

  /** The round in which the follower accepts. */
  lemma ConvergesAtOnce(n: NodeState, f: NodeState, lead: Log, log: Log, p: Id) returns (log': Log)
    requires Paired(n, f, lead, log, p) && InRange(n, p, |lead|) && CanReplicate(n, p)
    requires n.entries != [] && f.entries != [] && ReplyTo(f, ReplicateTo(n, p, 0)).success
    ensures InStepAfter(n, f, lead, log', p, 1)
  {
    var (n1, f1) := Round(n, f, p);
    log' := AcceptRound(n, f, lead, log, p);
    assert Rounds(n, f, p, 1) == Rounds(n1, f1, p, 0) == (n1, f1);
  }

  /** The snapshot round, and the round that ships what follows it. */
  lemma ConvergesBySnapshot(n: NodeState, f: NodeState, lead: Log, log: Log, p: Id) returns (log': Log)
    requires Paired(n, f, lead, log, p) && InRange(n, p, |lead|) && !Stuck(n, p) && !CanReplicate(n, p)
    requires n.entries != [] && f.entries != []
    ensures InStepAfter(n, f, lead, log', p, 2)
  {
    var (n1, f1) := Round(n, f, p);
    var log1 := SnapshotRound(n, f, lead, log, p);
    SnapshotThenAccepts(n1, f1, lead, log1, p);
    log' := ConvergesAtOnce(n1, f1, lead, log1, p);
    OneMoreRound(n, f, n1, f1, lead, log', p, 1, 2);
  }

  /** A stuck exchange changes nothing at the leader, however long it goes on. */
  lemma {:induction false} StuckStays(n: NodeState, f: NodeState, lead: Log, log: Log, p: Id, k: nat) returns (f': NodeState)
    requires Paired(n, f, lead, log, p) && InRange(n, p, |lead|) && Stuck(n, p)
    ensures n.entries != [] && f.entries != [] && Rounds(n, f, p, k) == (n, f')
    ensures Paired(n, f', lead, log, p) && f'.snapshotIndex <= Max(f.snapshotIndex, n.snapshotIndex)
    decreases k
  {
    LastTransparent(n, lead);
    LastTransparent(f, log);
    f' := f;
    if k > 0 {
      var f1 := StuckOnce(n, f, lead, log, p);
      f' := StuckStays(n, f1, lead, log, p, k - 1);
      OneTurn(Exchange(p), (n, f), (n, f1), k - 1, k);
    }
  }

  lemma StuckOnce(n: NodeState, f: NodeState, lead: Log, log: Log, p: Id) returns (f1: NodeState)
    requires Paired(n, f, lead, log, p) && InRange(n, p, |lead|) && Stuck(n, p) && n.entries != [] && f.entries != []
    ensures Exchange(p)((n, f)) == (n, f1) && Paired(n, f1, lead, log, p) && f1.snapshotIndex <= Max(f.snapshotIndex, n.snapshotIndex)
  {
    f1 := Round(n, f, p).1;
    var log1 := SnapshotRound(n, f, lead, log, p);
  }

  ghost predicate SyncedAfter(n: NodeState, f: NodeState, lead: Log, p: Id, k: nat)
    requires n.entries != [] && f.entries != []
  {
    var (n', f') := Rounds(n, f, p, k);
    exists log' :: Synced(n', f', lead, log', p)
  }

  /** The exchange brings the follower in step exactly when it is not stuck or has nothing left to do. */
  lemma RepairIff(n: NodeState, f: NodeState, lead: Log, log: Log, p: Id)
    requires Paired(n, f, lead, log, p) && InRange(n, p, |lead|)
    ensures n.entries != [] && f.entries != []
    ensures (exists k: nat :: SyncedAfter(n, f, lead, p, k)) <==> !Stuck(n, p) || Get(n.matchIndex, p) >= |lead|
  {
    LastTransparent(n, lead);
    LastTransparent(f, log);
    if !Stuck(n, p) {
      var k, log' := Converges(n, f, lead, log, p);
      assert SyncedAfter(n, f, lead, p, k);
    } else if Get(n.matchIndex, p) >= |lead| {
      assert Synced(n, f, lead, log, p);
      assert Rounds(n, f, p, 0) == (n, f);
      assert SyncedAfter(n, f, lead, p, 0);
    } else {
      forall k: nat ensures !SyncedAfter(n, f, lead, p, k) { var f' := StuckStays(n, f, lead, log, p, k); }
    }
  }
}
