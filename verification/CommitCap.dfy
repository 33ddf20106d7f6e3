/**
 The follower's commit rule (internal/raft/replication.go:242-243): exactly when it is safe, and why
 replication requests always make it so.
 */
module CommitCap {
  import opened JukeboxTypes
  import opened RaftLog
  import opened Storage
  import opened Node
  import opened Cluster
  import opened Relation
  import opened Compaction
  import opened Repair
  import opened Theorems

  // ---- Exactly when an accepted request commits what the leader has ----

  /** A follower about to accept a request cut from the leader's log. */
  ghost predicate Offered(f: NodeState, lead: Log, log: Log, m: Msg) {
    && EntriesRel(f.entries, f.snapshotIndex, log) && f.entries != []
    && WellFormed(log) && WellFormed(lead) && OneLeader(lead, log)
    && f.snapshotIndex <= f.commitIndex && Agree(log, lead, f.commitIndex)
    && RequestOf(lead, m) && SliceOf(lead, m.prevIndex, m.entries) && m.leaderCommit <= |lead|
    && !PrevMissing(f, m) && !PrevConflicts(f, m)
  }

  /** The follower's whole log afterwards. */
  lemma OfferedLog(f: NodeState, lead: Log, log: Log, m: Msg) returns (log': Log, c: nat)
    requires Offered(f, lead, log, m)
    ensures Agree(log, lead, c) && !Agree(log, lead, c + 1) && f.commitIndex <= c && m.prevIndex <= c
    ensures var upTo := m.prevIndex + |m.entries|; upTo <= |lead| && log' == Taken(log, lead, upTo, upTo <= c)
    ensures EntriesRel(AcceptEntries(f, m).node.entries, f.snapshotIndex, log')
  {
    PassedAgree(f, lead, log, m);
    c := Common(log, lead, Max(m.prevIndex, f.commitIndex));
    log' := OfferedMerge(f, lead, log, m, c);
  }

  lemma OfferedMerge(f: NodeState, lead: Log, log: Log, m: Msg, c: nat) returns (log': Log)
    requires EntriesRel(f.entries, f.snapshotIndex, log) && f.entries != [] && WellFormed(lead) && OneLeader(lead, log)
    requires m.AppendReq? && SliceOf(lead, m.prevIndex, m.entries) && m.prevIndex <= c && f.snapshotIndex <= c
    requires Agree(log, lead, c) && !Agree(log, lead, c + 1)
    ensures var upTo := m.prevIndex + |m.entries|; upTo <= |lead| && log' == Taken(log, lead, upTo, upTo <= c)
    ensures EntriesRel(AcceptEntries(f, m).node.entries, f.snapshotIndex, log')
  {
    OneLeaderMatches(lead, log);
    var upTo := m.prevIndex + |m.entries|;
    MergeTransparent(f.entries, f.snapshotIndex, log, lead, c, m.prevIndex, upTo);
    log' := Taken(log, lead, upTo, upTo <= c);
  }

  /**
   What the follower then counts as committed is the leader's prefix if and only if the new index was covered
   before, is covered by the request, or carries the leader's own term there.
   */
  lemma CommitAgreesIff(f: NodeState, lead: Log, log: Log, m: Msg) returns (log': Log)
    requires Offered(f, lead, log, m)
    ensures EntriesRel(AcceptEntries(f, m).node.entries, f.snapshotIndex, log') && Agree(log', log, f.snapshotIndex)
    ensures var k := AcceptEntries(f, m).node.commitIndex;
      && k <= |log'| && k <= |lead|
      && (Agree(log', lead, k) <==>
            k <= f.commitIndex || k <= m.prevIndex + |m.entries| || TermOf(f, k) == Some(TermAt(lead, k)))
  {
    var c;
    log', c := OfferedLog(f, lead, log, m);
    var upTo := m.prevIndex + |m.entries|;
    TakenWellFormed(log, lead, upTo, upTo <= c);
    CommitInRange(f, lead, log', m);
    var k := AcceptEntries(f, m).node.commitIndex;
    TermTransparent(f.entries, f.snapshotIndex, log, k);
    TakenIff(lead, log, c, upTo, f.commitIndex, k);
  }

  lemma CommitInRange(f: NodeState, lead: Log, log': Log, m: Msg)
    requires f.entries != [] && m.AppendReq? && m.leaderCommit <= |lead| && f.commitIndex <= |lead| && f.commitIndex <= |log'|
    requires EntriesRel(AcceptEntries(f, m).node.entries, f.snapshotIndex, log') && WellFormed(log')
    ensures f.commitIndex <= AcceptEntries(f, m).node.commitIndex <= |log'| && AcceptEntries(f, m).node.commitIndex <= |lead|
  {
    LastTransparent(AcceptEntries(f, m).node, log');
  }

  lemma TakenIff(lead: Log, log: Log, c: nat, upTo: nat, was: nat, k: nat)
    requires OneLeader(lead, log) && Agree(log, lead, c) && was <= c && upTo <= |lead|
    requires k <= |Taken(log, lead, upTo, upTo <= c)| && k <= |lead|
    ensures Agree(Taken(log, lead, upTo, upTo <= c), lead, k) <==>
      k <= was || k <= upTo || (k <= |log| && TermAt(log, k) == TermAt(lead, k))
  {
    if k > upTo { UncappedIff(lead, log, k); }
  }

  lemma TakenWellFormed(log: Log, lead: Log, m: nat, agreed: bool)
    requires WellFormed(log) && WellFormed(lead) && m <= |lead|
    ensures WellFormed(Taken(log, lead, m, agreed))
  {
  }

  lemma UncappedIff(lead: Log, log: Log, k: nat)
    requires OneLeader(lead, log) && 0 < k <= |lead| && k <= |log|
    ensures Agree(log, lead, k) <==> TermAt(log, k) == TermAt(lead, k)
  {
    assert lead[k - 1].term == log[k - 1].term ==> Agree(lead, log, k);
  }

  // ---- Replication requests are always capped ----

  predicate Capped(m: Msg) {
    m.AppendReq? ==> m.leaderCommit <= m.prevIndex + |m.entries|
  }

  lemma CappedIsSafe(n: NodeState, m: Msg)
    requires m.AppendReq? && Capped(m) && n.entries != []
    ensures CommitCapped(n, m)
  {
  }

  /** Everything but the leadership check ships the log to its end. */
  lemma SendsCapped(n: NodeState, call: Call, m: Msg)
    requires CanCall(n, call) && Valid(n) && !call.Confirm? && m in Handle(n, call).sends
    ensures Capped(m)
  {
    match call {
      case Receive(q, _) => assert m.AppendReq? ==> q.AppendReq?;
      case _ =>
    }
  }

  /** The leadership check's request is capped if and only if nothing beyond where it resumes is committed. */
  lemma ConfirmCappedIff(n: NodeState, peer: Id, rid: nat, commit: nat)
    ensures Capped(ConfirmTo(n, peer, rid, commit)) <==>
      commit <= if Get(n.nextIndex, peer) > 0 && TermOf(n, Get(n.nextIndex, peer) - 1).Some? then Get(n.nextIndex, peer) - 1 else 0
  {
  }

  ghost predicate PlainStep(run: seq<ClusterState>, steps: seq<Step>, i: nat)
    requires |run| == |steps| + 1 && i < |steps|
  {
    CanStep(run[i], steps[i]) && run[i + 1] == Take(run[i], steps[i]) && !steps[i].call.Confirm?
  }

  /** A run with no leadership checks. */
  ghost predicate IsPlainRun(run: seq<ClusterState>, steps: seq<Step>) {
    && |run| == |steps| + 1 && Start(run[0])
    && (forall i: nat {:trigger PlainStep(run, steps, i)} :: i < |steps| ==> PlainStep(run, steps, i))
  }

  ghost predicate AllCapped(msgs: set<Msg>) {
    forall m {:trigger Capped(m)} :: m in msgs ==> Capped(m)
  }

  /** By induction: while every request is capped the run is guarded, so cursors are in range, so the next is capped. */
  lemma {:induction false} PlainPrefix(run: seq<ClusterState>, steps: seq<Step>, k: nat)
    requires IsPlainRun(run, steps) && k <= |steps|
    ensures IsRun(run[..k + 1], steps[..k]) && AllCapped(run[k].msgs)
    decreases k
  {
    if k > 0 {
      var h := k - 1;
      PlainPrefix(run, steps, h);
      assert PlainStep(run, steps, h);
      PlainExtends(run, steps, h);
      NodesValid(run[..k], steps[..h], h, steps[h].v);
      forall m | m in run[k].msgs ensures Capped(m) {
        if m !in run[h].msgs { SendsCapped(run[h].nodes[steps[h].v], steps[h].call, m); }
      }
    }
  }

  lemma PlainExtends(run: seq<ClusterState>, steps: seq<Step>, h: nat)
    requires IsPlainRun(run, steps) && h < |steps| && IsRun(run[..h + 1], steps[..h]) && AllCapped(run[h].msgs)
    ensures IsRun(run[..h + 2], steps[..h + 1])
  {
    var r, t := run[..h + 2], steps[..h + 1];
    forall i: nat | i < |t| ensures RunStep(r, t, i) {
      assert PlainStep(run, steps, i);
      if i < h {
        assert RunStep(run[..h + 1], steps[..h], i);
      } else {
        var call := steps[h].call;
        if call.Receive? && call.m.AppendReq? {
          assert Capped(call.m);
          CappedIsSafe(run[h].nodes[steps[h].v], call.m);
        }
      }
    }
  }

  /** Without leadership checks the cap needs no assumption: such runs are guarded. */
  lemma PlainRunGuarded(run: seq<ClusterState>, steps: seq<Step>)
    requires IsPlainRun(run, steps)
    ensures IsRun(run, steps)
  {
    PlainPrefix(run, steps, |steps|);
    assert run[..|steps| + 1] == run && steps[..|steps|] == steps;
  }
}
