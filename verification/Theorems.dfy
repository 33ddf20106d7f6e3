/** What holds of every run of a cluster. */
module Theorems {
  import opened JukeboxTypes
  import opened JukeboxSpec
  import opened RaftLog
  import opened Storage
  import opened Node
  import opened Cluster
  import opened Consensus
  import opened ConsensusSteps
  import opened ConsensusLogs
  import opened ConsensusSafety
  import opened Relation
  import opened Compaction
  import opened SimAppend
  import opened SimLeader
  import opened Simulation
  import opened Machine
  import opened AppliedLog

  // ---- Runs ----

  ghost predicate Matched(c: ClusterState, s: State) {
    Inv(s) && Rel(c, s) && Logged(c, s)
  }

  ghost predicate StepMatched(abs: seq<State>, steps: seq<Step>, i: nat)
    requires |abs| == |steps| + 1 && i < |steps|
  {
    Continues(abs[i], abs[i + 1], steps[i].v)
  }

  /** A run of the core that the cluster's run stands for, state by state. */
  ghost predicate Shadow(run: seq<ClusterState>, steps: seq<Step>, abs: seq<State>) {
    && |abs| == |run| == |steps| + 1
    && (forall i: nat {:trigger Matched(run[i], abs[i])} :: i < |run| ==> Matched(run[i], abs[i]))
    && (forall i: nat {:trigger StepMatched(abs, steps, i)} :: i < |steps| ==> StepMatched(abs, steps, i))
  }

  ghost predicate FoldsThrough(run: seq<ClusterState>, abs: seq<State>) {
    |abs| == |run| && forall i: nat {:trigger FoldInv(run[i], abs[i])} :: i < |run| ==> FoldInv(run[i], abs[i])
  }

  ghost predicate FoldRunStep(run: seq<ClusterState>, steps: seq<Step>, i: nat)
    requires i < |run| && i < |steps|
  {
    CanStep(run[i], steps[i]) && FoldGuarded(run[i], steps[i])
  }

  /** Every snapshot installed in the run reaches at least as far as was applied. */
  ghost predicate FoldRun(run: seq<ClusterState>, steps: seq<Step>) {
    && |run| == |steps| + 1
    && forall i: nat {:trigger FoldRunStep(run, steps, i)} :: i < |steps| ==> FoldRunStep(run, steps, i)
  }

  ghost predicate WholeStep(run: seq<ClusterState>, steps: seq<Step>, i: nat)
    requires i < |run| && i < |steps|
  {
    CanStep(run[i], steps[i]) && !Torn(run[i], steps[i])
  }

  /** No crash in the run strikes between InstallSnapshot's suffix deletion and its snapshot save. */
  ghost predicate NoTornCrash(run: seq<ClusterState>, steps: seq<Step>) {
    && |run| == |steps| + 1
    && forall i: nat {:trigger WholeStep(run, steps, i)} :: i < |steps| ==> WholeStep(run, steps, i)
  }

  ghost predicate KeptThrough(abs: seq<State>) {
    forall i: nat {:trigger NothingForgotten(abs[i])} :: i < |abs| ==> NothingForgotten(abs[i])
  }

  lemma RunPrefix(run: seq<ClusterState>, steps: seq<Step>)
    requires IsRun(run, steps) && steps != []
    ensures IsRun(run[..|run| - 1], steps[..|steps| - 1])
    ensures FoldRun(run, steps) ==> FoldRun(run[..|run| - 1], steps[..|steps| - 1])
    ensures NoTornCrash(run, steps) ==> NoTornCrash(run[..|run| - 1], steps[..|steps| - 1])
  {
    var r, t := run[..|run| - 1], steps[..|steps| - 1];
    forall i: nat | i < |t| ensures RunStep(r, t, i) { assert RunStep(run, steps, i); }
    if FoldRun(run, steps) {
      forall i: nat | i < |t| ensures FoldRunStep(r, t, i) { assert FoldRunStep(run, steps, i); }
    }
    if NoTornCrash(run, steps) {
      forall i: nat | i < |t| ensures WholeStep(r, t, i) { assert WholeStep(run, steps, i); }
    }
  }

  lemma ShadowExtend(run: seq<ClusterState>, steps: seq<Step>, before: seq<State>, s: State)
    requires |run| == |steps| + 1 && steps != [] && Shadow(run[..|steps|], steps[..|steps| - 1], before)
    requires Matched(run[|steps|], s) && Continues(before[|steps| - 1], s, steps[|steps| - 1].v)
    ensures Shadow(run, steps, before + [s])
  {
    var k := |steps| - 1;
    var abs := before + [s];
    forall i: nat | i < |run| ensures Matched(run[i], abs[i]) {
      if i <= k { assert Matched(run[..k + 1][i], before[i]); }
    }
    forall i: nat | i < |steps| ensures StepMatched(abs, steps, i) {
      if i < k { assert StepMatched(before, steps[..k], i); }
    }
  }

  lemma FoldsExtend(run: seq<ClusterState>, before: seq<State>, s: State)
    requires |run| == |before| + 1 && FoldsThrough(run[..|before|], before) && FoldInv(run[|before|], s)
    ensures FoldsThrough(run, before + [s])
  {
    var k := |before|;
    forall i: nat | i < |run| ensures FoldInv(run[i], (before + [s])[i]) {
      if i < k { assert FoldInv(run[..k][i], before[i]); }
    }
  }

  lemma {:induction false} RunShadow(run: seq<ClusterState>, steps: seq<Step>) returns (abs: seq<State>)
    requires IsRun(run, steps)
    ensures Shadow(run, steps, abs)
    ensures FoldRun(run, steps) ==> FoldsThrough(run, abs)
    ensures NoTornCrash(run, steps) ==> KeptThrough(abs)
    decreases |steps|
  {
    if steps == [] {
      StartSim(run[0]);
      StartFolds(run[0]);
      StartLogged(run[0]);
      abs := [Init(run[0].nodes.Keys)];
    } else {
      var k := |steps| - 1;
      RunPrefix(run, steps);
      var before := RunShadow(run[..k + 1], steps[..k]);
      assert Matched(run[..k + 1][k], before[k]);
      assert RunStep(run, steps, k);
      var s := MatchedStep(run[k], before[k], steps[k]);
      abs := before + [s];
      ShadowExtend(run, steps, before, s);
      if FoldRun(run, steps) {
        assert FoldRunStep(run, steps, k) && FoldInv(run[..k + 1][k], before[k]);
        FoldStep(run[k], before[k], steps[k], s);
        FoldsExtend(run, before, s);
      }
      if NoTornCrash(run, steps) {
        assert WholeStep(run, steps, k) && NothingForgotten(before[k]);
        forall i: nat | i < |abs| ensures NothingForgotten(abs[i]) { assert i < k + 1 ==> NothingForgotten(before[i]); }
      }
    }
  }

  lemma MatchedStep(c: ClusterState, s: State, step: Step) returns (s': State)
    requires Matched(c, s) && CanStep(c, step) && Guarded(c, step)
    ensures Matched(Take(c, step), s') && Stepped(c, s, step, s')
    ensures !Torn(c, step) && NothingForgotten(s) ==> NothingForgotten(s')
  {
    s' := StepSim(c, s, step);
    LoggedStep(c, s, step, s');
  }

  // ---- How the core's states compare along a run ----

  ghost predicate ReignLater(s: State, s': State, t: nat)
    requires t in s.reigns
  {
    && t in s'.reigns && s'.reigns[t].leader == s.reigns[t].leader
    && Agree(s.reigns[t].log, s'.reigns[t].log, |s.reigns[t].log|)
    && s.reigns[t].commit <= s'.reigns[t].commit
  }

  ghost predicate Later(s: State, s': State) {
    && s.servers.Keys == s'.servers.Keys
    && (forall t {:trigger ReignLater(s, s', t)} :: t in s.reigns ==> ReignLater(s, s', t))
    && (forall u :: u in s.servers ==> s.servers[u].term <= s'.servers[u].term)
  }

  lemma LaterStep(s: State, s1: State, s2: State, v: Id)
    requires Later(s, s1) && Continues(s1, s2, v)
    ensures Later(s, s2)
  {
    forall t | t in s.reigns ensures ReignLater(s, s2, t) {
      assert ReignLater(s, s1, t) && ReignEvolves(s1, s2, v, t);
    }
    forall u | u in s.servers ensures s.servers[u].term <= s2.servers[u].term {
      assert u != v ==> ServerStands(s1, s2, u);
    }
  }

  lemma {:induction false} ShadowLater(run: seq<ClusterState>, steps: seq<Step>, abs: seq<State>, i: nat, j: nat)
    requires Shadow(run, steps, abs) && i <= j < |abs|
    ensures Later(abs[i], abs[j])
    decreases j - i
  {
    if i == j {
      forall t | t in abs[i].reigns ensures ReignLater(abs[i], abs[i], t) { }
    } else {
      ShadowLater(run, steps, abs, i, j - 1);
      assert StepMatched(abs, steps, j - 1);
      LaterStep(abs[i], abs[j - 1], abs[j], steps[j - 1].v);
    }
  }

  lemma EntryLater(s: State, s': State, e: Entry)
    requires Later(s, s') && EntryCertified(s, e)
    ensures EntryCertified(s', e)
  {
    var t :| t in s.reigns && 0 < e.index <= s.reigns[t].commit && e.index <= |s.reigns[t].log| && s.reigns[t].log[e.index - 1] == e;
    assert ReignLater(s, s', t);
  }

  /** The core state that one state of a run stands for. */
  lemma StateOf(run: seq<ClusterState>, steps: seq<Step>, i: nat) returns (s: State)
    requires IsRun(run, steps) && i < |run|
    ensures Matched(run[i], s) && (FoldRun(run, steps) ==> FoldInv(run[i], s))
    ensures NoTornCrash(run, steps) ==> NothingForgotten(s)
  {
    var abs := RunShadow(run, steps);
    s := abs[i];
    assert Matched(run[i], abs[i]);
    assert FoldRun(run, steps) ==> FoldInv(run[i], abs[i]);
    assert NoTornCrash(run, steps) ==> NothingForgotten(abs[i]);
  }

  lemma StatesOf(run: seq<ClusterState>, steps: seq<Step>, i: nat, j: nat) returns (s: State, s': State)
    requires IsRun(run, steps) && i <= j < |run|
    ensures Matched(run[i], s) && Matched(run[j], s') && Later(s, s')
    ensures FoldRun(run, steps) ==> FoldInv(run[i], s) && FoldInv(run[j], s')
  {
    var abs := RunShadow(run, steps);
    s, s' := abs[i], abs[j];
    assert Matched(run[i], abs[i]) && Matched(run[j], abs[j]);
    assert FoldRun(run, steps) ==> FoldInv(run[i], abs[i]) && FoldInv(run[j], abs[j]);
    ShadowLater(run, steps, abs, i, j);
  }

  lemma NodeOf(c: ClusterState, s: State, v: Id)
    requires Matched(c, s) && v in c.nodes
    ensures NodeRel(s, v, c.nodes[v]) && GoodServer(s, v) && GoodCommit(s, v)
  {
    assert NodeRel(s, v, c.nodes[v]);
  }

  // ---- State machine safety ----

  lemma CertifiedSame(s: State, e: Entry, f: Entry)
    requires Inv(s) && EntryCertified(s, e) && EntryCertified(s, f) && e.index == f.index
    ensures e == f
  {
    var t :| t in s.reigns && 0 < e.index <= s.reigns[t].commit && e.index <= |s.reigns[t].log| && s.reigns[t].log[e.index - 1] == e;
    var u :| u in s.reigns && 0 < f.index <= s.reigns[u].commit && f.index <= |s.reigns[u].log| && s.reigns[u].log[f.index - 1] == f;
    if t <= u { AnnouncedInLater(s, t, u); } else { AnnouncedInLater(s, u, t); }
  }

  /** No two nodes ever apply different entries at one index, at whatever points of the run. */
  lemma StateMachineSafety(run: seq<ClusterState>, steps: seq<Step>, i: nat, j: nat, e: Entry, f: Entry)
    requires IsRun(run, steps) && i <= j < |run|
    requires e in run[i].applied && f in run[j].applied && e.index == f.index
    ensures e == f
  {
    var s, s' := StatesOf(run, steps, i, j);
    assert EntryCertified(s, e) && EntryCertified(s', f);
    EntryLater(s, s', e);
    CertifiedSame(s', e, f);
  }

  // ---- Elections ----

  lemma LeaderReigns(c: ClusterState, s: State, v: Id)
    requires Matched(c, s) && v in c.nodes && c.nodes[v].role == Leader
    ensures v in s.servers && s.servers[v].term == c.nodes[v].currentTerm && c.nodes[v].currentTerm in s.reigns
    ensures s.reigns[c.nodes[v].currentTerm].leader == v && s.reigns[c.nodes[v].currentTerm].commit == c.nodes[v].commitIndex
    ensures s.reigns[c.nodes[v].currentTerm].log == s.servers[v].log
  {
    assert NodeRel(s, v, c.nodes[v]);
    LeaderLog(s, v, c.nodes[v]);
  }

  // ---- Logs ----

  /** The node holds the entry in memory. */
  predicate Holds(n: NodeState, e: Entry) {
    n.snapshotIndex < e.index && e.index - n.snapshotIndex < |n.entries| && n.entries[e.index - n.snapshotIndex] == e
  }

  /** The node holds the entry, or has compacted it away after it was applied. */
  predicate Covers(n: NodeState, applied: set<Entry>, e: Entry) {
    Holds(n, e) || (0 < e.index <= n.snapshotIndex && e in applied)
  }

  ghost predicate InLog(log: Log, e: Entry) {
    0 < e.index <= |log| && log[e.index - 1] == e
  }

  lemma HoldsIs(s: State, v: Id, n: NodeState, e: Entry)
    requires NodeRel(s, v, n)
    ensures Holds(n, e) ==> InLog(s.servers[v].log, e)
    ensures InLog(s.servers[v].log, e) && e.index > n.snapshotIndex ==> Holds(n, e)
  {
  }

  /** A committed entry in a server's log is certified. */
  lemma CommittedCertified(s: State, v: Id, i: nat)
    requires Inv(s) && v in s.servers && i < s.servers[v].commit
    ensures i < |s.servers[v].log| && s.servers[v].log[i].index == i + 1 && EntryCertified(s, s.servers[v].log[i])
  {
    assert GoodCommit(s, v) && GoodServer(s, v);
    var e, t := s.servers[v].log[i], s.servers[v].cert;
    assert t in s.reigns && 0 < e.index <= s.reigns[t].commit && s.reigns[t].log[e.index - 1] == e;
  }

  /** Covering an entry is having it in the whole, uncompacted log. */
  lemma CoversIs(c: ClusterState, s: State, v: Id, e: Entry)
    requires Matched(c, s) && v in c.nodes
    ensures v in s.servers && (Covers(c.nodes[v], c.applied, e) <==> InLog(s.servers[v].log, e))
  {
    var n := c.nodes[v];
    NodeOf(c, s, v);
    HoldsIs(s, v, n, e);
    assert NodeLogged(c, s, v);
    if 0 < e.index <= n.snapshotIndex {
      CommittedCertified(s, v, e.index - 1);
      if e in c.applied {
        assert EntryCertified(s, e);
        CertifiedSame(s, e, s.servers[v].log[e.index - 1]);
      }
    }
  }

  lemma MatchingInState(c: ClusterState, s: State, u: Id, v: Id, e: Entry, f: Entry)
    requires Matched(c, s) && u in c.nodes && v in c.nodes && e.term == f.term && e.index == f.index
    requires Covers(c.nodes[u], c.applied, e) && Covers(c.nodes[v], c.applied, f)
    ensures u in s.servers && v in s.servers && Agree(s.servers[u].log, s.servers[v].log, e.index) && e == f
  {
    NodeOf(c, s, u);
    NodeOf(c, s, v);
    CoversIs(c, s, u, e);
    CoversIs(c, s, v, f);
    LogMatching(s, u, v, e.index - 1);
  }

  /** Log matching: entries alike in index and term are equal, and so are any two before them, compacted or not. */
  lemma LogMatchingInRuns(run: seq<ClusterState>, steps: seq<Step>, i: nat, u: Id, v: Id, e: Entry, f: Entry, e': Entry, f': Entry)
    requires IsRun(run, steps) && i < |run| && u in run[i].nodes && v in run[i].nodes
    requires Covers(run[i].nodes[u], run[i].applied, e) && Covers(run[i].nodes[v], run[i].applied, f) && e.index == f.index && e.term == f.term
    requires Covers(run[i].nodes[u], run[i].applied, e') && Covers(run[i].nodes[v], run[i].applied, f') && e'.index == f'.index <= e.index
    ensures e == f && e' == f'
  {
    var s := StateOf(run, steps, i);
    MatchingInState(run[i], s, u, v, e, f);
    CoversIs(run[i], s, u, e');
    CoversIs(run[i], s, v, f');
  }

  lemma MessageInState(c: ClusterState, s: State, v: Id, m: Msg, f: Entry, k: nat)
    requires Matched(c, s) && v in c.nodes && m in c.msgs && m.AppendReq? && k < |m.entries|
    requires Covers(c.nodes[v], c.applied, f) && f.index == m.entries[k].index && f.term == m.entries[k].term
    ensures v in s.servers && m.term in s.reigns && f.index == m.prevIndex + k + 1
    ensures Agree(s.servers[v].log, s.reigns[m.term].log, f.index)
    ensures forall h :: 0 <= h < |m.entries| ==> m.prevIndex + h < |s.reigns[m.term].log| && m.entries[h] == s.reigns[m.term].log[m.prevIndex + h]
  {
    NodeOf(c, s, v);
    CoversIs(c, s, v, f);
    assert MsgRel(s, m) && GoodReign(s, m.term);
    var lead := s.reigns[m.term].log;
    assert m.entries[k] == lead[m.prevIndex + k];
    assert RootedAt(s.reigns, s.servers[v].log, f.index - 1) && RootedAt(s.reigns, lead, f.index - 1);
  }

  /** Log matching between a log and a request in flight: one shared index and term, and all before is shared. */
  lemma LogMatchesMessage(run: seq<ClusterState>, steps: seq<Step>, i: nat, v: Id, m: Msg, f: Entry, k: nat, f': Entry, k': nat)
    requires IsRun(run, steps) && i < |run| && v in run[i].nodes && m in run[i].msgs && m.AppendReq? && k' <= k < |m.entries|
    requires Covers(run[i].nodes[v], run[i].applied, f) && f.index == m.entries[k].index && f.term == m.entries[k].term
    requires Covers(run[i].nodes[v], run[i].applied, f') && f'.index == m.entries[k'].index
    ensures f == m.entries[k] && f' == m.entries[k']
    ensures run[i].nodes[v].snapshotIndex <= m.prevIndex ==> TermOf(run[i].nodes[v], m.prevIndex) == Some(m.prevTerm)
  {
    var s := StateOf(run, steps, i);
    MessageShares(run[i], s, v, m, f, k, f', k');
  }

  lemma MessageShares(c: ClusterState, s: State, v: Id, m: Msg, f: Entry, k: nat, f': Entry, k': nat)
    requires Matched(c, s) && v in c.nodes && m in c.msgs && m.AppendReq? && k' <= k < |m.entries|
    requires Covers(c.nodes[v], c.applied, f) && f.index == m.entries[k].index && f.term == m.entries[k].term
    requires Covers(c.nodes[v], c.applied, f') && f'.index == m.entries[k'].index
    ensures f == m.entries[k] && f' == m.entries[k']
    ensures c.nodes[v].snapshotIndex <= m.prevIndex ==> TermOf(c.nodes[v], m.prevIndex) == Some(m.prevTerm)
  {
    var n := c.nodes[v];
    MessageInState(c, s, v, m, f, k);
    NodeOf(c, s, v);
    CoversIs(c, s, v, f);
    CoversIs(c, s, v, f');
    assert MsgRel(s, m) && GoodReign(s, m.term);
    TermTransparent(n.entries, n.snapshotIndex, s.servers[v].log, m.prevIndex);
  }

  /** In a guarded run every node's cursors stay within its log. */
  lemma NodesValid(run: seq<ClusterState>, steps: seq<Step>, i: nat, v: Id)
    requires IsRun(run, steps) && i < |run| && v in run[i].nodes
    ensures Valid(run[i].nodes[v])
  {
    var s := StateOf(run, steps, i);
    assert NodeRel(s, v, run[i].nodes[v]) && DiskAt(run[i].nodes, run[i].disks, s, v);
    ReadyValid(s, v, run[i].nodes[v], run[i].disks[v]);
  }

  function LastIndexOr0(n: NodeState): nat {
    if n.entries == [] then 0 else LastIndex(n)
  }

  lemma LastIs(s: State, v: Id, n: NodeState)
    requires v in s.servers && GoodServer(s, v) && NodeRel(s, v, n)
    ensures LastIndexOr0(n) == |s.servers[v].log|
  {
    LastTransparent(n, s.servers[v].log);
  }

  lemma CompleteInStates(c: ClusterState, s: State, c': ClusterState, s': State, u: Id, v: Id, e: Entry)
    requires Matched(c, s) && Matched(c', s') && Later(s, s') && u in c.nodes && v in c'.nodes
    requires c.nodes[u].role == Leader && c'.nodes[v].role == Leader && c.nodes[u].currentTerm < c'.nodes[v].currentTerm
    requires Covers(c.nodes[u], c.applied, e) && e.index <= c.nodes[u].commitIndex
    ensures v in s'.servers && InLog(s'.servers[v].log, e)
  {
    LeaderReigns(c, s, u);
    LeaderReigns(c', s', v);
    CoversIs(c, s, u, e);
    assert ReignLater(s, s', c.nodes[u].currentTerm);
    AnnouncedInLater(s', c.nodes[u].currentTerm, c'.nodes[v].currentTerm);
  }

  /** Leader completeness: what a leader announced as committed, every leader of a later term covers. */
  lemma LeaderCompleteness(run: seq<ClusterState>, steps: seq<Step>, i: nat, j: nat, u: Id, v: Id, e: Entry)
    requires IsRun(run, steps) && i <= j < |run| && u in run[i].nodes && v in run[j].nodes
    requires run[i].nodes[u].role == Leader && run[j].nodes[v].role == Leader
    requires run[i].nodes[u].currentTerm < run[j].nodes[v].currentTerm
    requires Covers(run[i].nodes[u], run[i].applied, e) && e.index <= run[i].nodes[u].commitIndex
    ensures Covers(run[j].nodes[v], run[j].applied, e)
  {
    var s, s' := StatesOf(run, steps, i, j);
    CompleteInStates(run[i], s, run[j], s', u, v, e);
    CoversIs(run[j], s', v, e);
  }

  lemma MatchInState(c: ClusterState, s: State, v: Id, p: Id, e: Entry)
    requires Matched(c, s) && v in c.nodes && p in c.nodes && c.nodes[v].role == Leader
    requires c.nodes[p].currentTerm == c.nodes[v].currentTerm
    requires Covers(c.nodes[v], c.applied, e) && e.index <= Get(c.nodes[v].matchIndex, p)
    ensures Covers(c.nodes[p], c.applied, e) || e.index < c.nodes[v].snapshotIndex
    ensures NothingForgotten(s) ==> Covers(c.nodes[p], c.applied, e)
  {
    var t := c.nodes[v].currentTerm;
    LeaderReigns(c, s, v);
    NodeOf(c, s, v);
    NodeOf(c, s, p);
    CoversIs(c, s, v, e);
    CoversIs(c, s, p, e);
    assert MatchAt(s, c.nodes[v], p);
    assert GoodAck(s, p, t) && (NothingForgotten(s) ==> StrictAck(s, p, t));
  }

  /**
   matchIndex soundness: a peer still in the leader's term covers all the leader believes it does, or, after a crash
   inside InstallSnapshot, all but what lies under the leader's own snapshot.
   */
  lemma MatchIndexSound(run: seq<ClusterState>, steps: seq<Step>, i: nat, v: Id, p: Id, e: Entry)
    requires IsRun(run, steps) && i < |run| && v in run[i].nodes && p in run[i].nodes
    requires run[i].nodes[v].role == Leader && run[i].nodes[p].currentTerm == run[i].nodes[v].currentTerm
    requires Covers(run[i].nodes[v], run[i].applied, e) && e.index <= Get(run[i].nodes[v].matchIndex, p)
    ensures Covers(run[i].nodes[p], run[i].applied, e) || e.index < run[i].nodes[v].snapshotIndex
    ensures NoTornCrash(run, steps) ==> Covers(run[i].nodes[p], run[i].applied, e)
  {
    var s := StateOf(run, steps, i);
    MatchInState(run[i], s, v, p, e);
  }

  // ---- Promises kept across crashes ----

  lemma AckInState(c: ClusterState, s: State, q: Msg, m: Msg, k: nat)
    requires Matched(c, s) && q in c.msgs && m in c.msgs
    requires q.AppendReq? && m.AppendReply? && m.success && m.src == q.dst && m.reqTerm == q.term
    requires m.prevIndex == q.prevIndex && m.count == |q.entries| && k < |q.entries|
    ensures m.src in c.nodes && c.nodes[m.src].currentTerm >= q.term
    ensures c.nodes[m.src].currentTerm == q.term ==> Covers(c.nodes[m.src], c.applied, q.entries[k]) || q.entries[k] in c.applied
    ensures c.nodes[m.src].currentTerm == q.term && NothingForgotten(s) ==> Covers(c.nodes[m.src], c.applied, q.entries[k])
    ensures forall v :: v in c.nodes && c.nodes[v].role == Leader && c.nodes[v].currentTerm == q.term == c.nodes[m.src].currentTerm ==>
      Covers(c.nodes[m.src], c.applied, q.entries[k]) || q.entries[k].index < c.nodes[v].snapshotIndex
  {
    assert MsgRel(s, m) && MsgRel(s, q);
    assert GoodReign(s, q.term) && ReignLogged(c.applied, s, q.term);
    NodeOf(c, s, m.src);
    CoversIs(c, s, m.src, q.entries[k]);
    assert q.entries[k] == s.reigns[q.term].log[q.prevIndex + k];
    forall v | v in c.nodes && c.nodes[v].role == Leader && c.nodes[v].currentTerm == q.term
      ensures s.reigns[q.term].sent <= c.nodes[v].snapshotIndex { NodeOf(c, s, v); }
    assert GoodAck(s, m.src, q.term) && (NothingForgotten(s) ==> StrictAck(s, m.src, q.term));
  }

  /**
   An acknowledged request's entries stay covered while the follower is in the request's term; a crash inside
   InstallSnapshot loses only such as some state machine has applied and the term's leader has compacted away.
   */
  lemma AcksHonoured(run: seq<ClusterState>, steps: seq<Step>, i: nat, q: Msg, m: Msg, k: nat)
    requires IsRun(run, steps) && i < |run| && q in run[i].msgs && m in run[i].msgs
    requires q.AppendReq? && m.AppendReply? && m.success && m.src == q.dst && m.reqTerm == q.term
    requires m.prevIndex == q.prevIndex && m.count == |q.entries| && k < |q.entries|
    ensures m.src in run[i].nodes && run[i].nodes[m.src].currentTerm >= q.term
    ensures run[i].nodes[m.src].currentTerm == q.term ==> Covers(run[i].nodes[m.src], run[i].applied, q.entries[k]) || q.entries[k] in run[i].applied
    ensures run[i].nodes[m.src].currentTerm == q.term && NoTornCrash(run, steps) ==> Covers(run[i].nodes[m.src], run[i].applied, q.entries[k])
    ensures forall v :: v in run[i].nodes && run[i].nodes[v].role == Leader && run[i].nodes[v].currentTerm == q.term == run[i].nodes[m.src].currentTerm ==>
      Covers(run[i].nodes[m.src], run[i].applied, q.entries[k]) || q.entries[k].index < run[i].nodes[v].snapshotIndex
  {
    var s := StateOf(run, steps, i);
    AckInState(run[i], s, q, m, k);
  }

  // ---- Applied state ----

  /** The cursors are ordered at every lock release. */
  lemma CursorsOrdered(run: seq<ClusterState>, steps: seq<Step>, i: nat, v: Id)
    requires IsRun(run, steps) && i < |run| && v in run[i].nodes
    ensures var n := run[i].nodes[v]; n.snapshotIndex <= n.lastApplied <= n.commitIndex <= LastIndexOr0(n)
  {
    var s := StateOf(run, steps, i);
    NodeOf(run[i], s, v);
    LastIs(s, v, run[i].nodes[v]);
  }

  /** What a node's jukebox is the fold of, with the reign that certifies it. */
  lemma FoldOf(c: ClusterState, s: State, v: Id)
    requires Matched(c, s) && FoldInv(c, s) && v in c.nodes
    ensures v in s.servers && NodeRel(s, v, c.nodes[v])
    ensures var n := c.nodes[v]; var a := s.servers[v];
      Certified(s, a.log, n.lastApplied, a.cert) && n.machine == Fold(a.log[..n.lastApplied])
  {
    NodeOf(c, s, v);
    assert Folded(c.nodes[v], s.servers[v].log);
  }

  lemma CertifiedLater(s: State, s': State, log: Log, k: nat, cert: nat)
    requires Later(s, s') && Certified(s, log, k, cert)
    ensures Certified(s', log, k, cert)
  {
    assert cert in s.reigns ==> ReignLater(s, s', cert);
  }

  /** Nodes that have applied equally far have equal jukeboxes, at whatever points of the run. */
  lemma ReplicasAgree(run: seq<ClusterState>, steps: seq<Step>, i: nat, j: nat, u: Id, v: Id)
    requires IsRun(run, steps) && FoldRun(run, steps) && i <= j < |run| && u in run[i].nodes && v in run[j].nodes
    requires run[i].nodes[u].lastApplied == run[j].nodes[v].lastApplied
    ensures run[i].nodes[u].machine == run[j].nodes[v].machine
  {
    var s, s' := StatesOf(run, steps, i, j);
    FoldOf(run[i], s, u);
    FoldOf(run[j], s', v);
    var a, b := s.servers[u], s'.servers[v];
    var k := run[i].nodes[u].lastApplied;
    CertifiedLater(s, s', a.log, k, a.cert);
    CertifiedAgree(s', a.log, k, a.cert, b.log, k, b.cert);
    SameSlice(a.log, b.log, k, k);
  }

  /** The log of what has been applied, up to k: the only entry applied at each index. */
  ghost predicate IsAppliedLog(c: ClusterState, log: Log) {
    && Indexed(log) && (forall i :: 0 <= i < |log| ==> log[i] in c.applied)
    && (forall e :: e in c.applied && 0 < e.index <= |log| ==> log[e.index - 1] == e)
  }

  lemma AppliedLogOf(c: ClusterState, s: State, log: Log, t: nat)
    requires Matched(c, s) && Indexed(log) && Certified(s, log, |log|, t) && Within(c.applied, log, |log|)
    ensures IsAppliedLog(c, log)
  {
    forall e | e in c.applied && 0 < e.index <= |log| ensures log[e.index - 1] == e {
      assert EntryCertified(s, e) && EntryCertified(s, log[e.index - 1]);
      CertifiedSame(s, e, log[e.index - 1]);
    }
  }

  /** The applied prefix of a node's log is the log of what has been applied. */
  lemma NodeAppliedLog(c: ClusterState, s: State, v: Id)
    requires Matched(c, s) && v in c.nodes
    ensures v in s.servers && c.nodes[v].lastApplied <= |s.servers[v].log|
    ensures IsAppliedLog(c, s.servers[v].log[..c.nodes[v].lastApplied])
  {
    NodeOf(c, s, v);
    assert NodeLogged(c, s, v);
    AppliedLogOf(c, s, s.servers[v].log[..c.nodes[v].lastApplied], s.servers[v].cert);
  }

  /** A node's jukebox, and the snapshot it has taken, are folds of the log of what has been applied. */
  lemma AppliedIsFold(run: seq<ClusterState>, steps: seq<Step>, i: nat, v: Id) returns (log: Log)
    requires IsRun(run, steps) && FoldRun(run, steps) && i < |run| && v in run[i].nodes
    ensures var n := run[i].nodes[v];
      && |log| == n.lastApplied && IsAppliedLog(run[i], log) && n.machine == Fold(log)
      && (forall k :: n.snapshotIndex <= k < |log| ==> Holds(n, log[k]))
      && n.snapshotIndex <= |log| && n.snapshotData == if n.snapshotIndex == 0 then None else Some(Fold(log[..n.snapshotIndex]))
  {
    var s := StateOf(run, steps, i);
    var n := run[i].nodes[v];
    FoldOf(run[i], s, v);
    NodeAppliedLog(run[i], s, v);
    log := s.servers[v].log[..n.lastApplied];
    FoldInState(run[i], s, v);
  }

  lemma FoldInState(c: ClusterState, s: State, v: Id)
    requires Matched(c, s) && FoldInv(c, s) && v in c.nodes
    ensures v in s.servers && c.nodes[v].snapshotIndex <= c.nodes[v].lastApplied <= |s.servers[v].log|
    ensures var n := c.nodes[v]; var log := s.servers[v].log[..n.lastApplied];
      && (forall k :: n.snapshotIndex <= k < |log| ==> Holds(n, log[k]))
      && n.snapshotData == if n.snapshotIndex == 0 then None else Some(Fold(log[..n.snapshotIndex]))
  {
    var n := c.nodes[v];
    NodeOf(c, s, v);
    var whole := s.servers[v].log;
    assert Folded(n, whole);
    assert whole[..n.lastApplied][..n.snapshotIndex] == whole[..n.snapshotIndex];
    forall k | n.snapshotIndex <= k < n.lastApplied ensures Holds(n, whole[k]) { HoldsIs(s, v, n, whole[k]); }
  }

  // ---- Submit ----

  /** A Submit that answers does so for the very entry any node applies at its index. */
  lemma SubmitTruthful(run: seq<ClusterState>, steps: seq<Step>, i: nat, j: nat, a: Answer, e: Entry)
    requires IsRun(run, steps) && i <= j < |run| && a in run[i].answers && e in run[j].applied && e.index == a.index
    ensures e == Entry(a.term, a.index, a.payload)
  {
    var s := StateOf(run, steps, i);
    assert Answered(a) in run[i].applied;
    StateMachineSafety(run, steps, i, j, Answered(a), e);
  }

  /** A Submit's command has been applied by the time it is answered. */
  lemma SubmitApplied(run: seq<ClusterState>, steps: seq<Step>, i: nat, a: Answer)
    requires IsRun(run, steps) && i < |run| && a in run[i].answers
    ensures Entry(a.term, a.index, a.payload) in run[i].applied
  {
    var s := StateOf(run, steps, i);
    assert Answered(a) in run[i].applied;
  }

  /** A Submit's result is what its command produces on the jukebox of any node just short of its index. */
  lemma SubmitResult(run: seq<ClusterState>, steps: seq<Step>, i: nat, a: Answer, v: Id)
    requires IsRun(run, steps) && FoldRun(run, steps) && i < |run| && a in run[i].answers && v in run[i].nodes
    requires run[i].nodes[v].lastApplied + 1 == a.index
    ensures a.result == Apply(run[i].nodes[v].machine, a.payload).1
  {
    var s := StateOf(run, steps, i);
    assert Truthful(s, a);
    var t :| t in s.reigns && 0 < a.index <= s.reigns[t].commit && a.index <= |s.reigns[t].log|
      && s.reigns[t].log[a.index - 1] == Entry(a.term, a.index, a.payload)
      && a.result == Apply(Fold(s.reigns[t].log[..a.index - 1]), a.payload).1;
    FoldOf(run[i], s, v);
    var n := s.servers[v];
    var k := run[i].nodes[v].lastApplied;
    CertifiedAgree(s, n.log, k, n.cert, s.reigns[t].log, a.index, t);
    SameSlice(n.log, s.reigns[t].log, k, k);
  }
}
