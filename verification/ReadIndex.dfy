/**
 Read-index reads (internal/raft/readindex.go): what a leader's recorded commit index covers
 once a quorum has answered requests sent after it was recorded.
 */
module ReadIndex {
  import opened JukeboxTypes
  import opened JukeboxSpec
  import opened RaftLog
  import opened Storage
  import opened Node
  import opened Cluster
  import opened Consensus
  import opened ConsensusSteps
  import opened ConsensusLogs
  import opened ConsensusSafety
  import opened Relation
  import opened Machine
  import opened AppliedLog
  import opened Theorems

  // ---- Which acknowledgements are new ----

  ghost predicate IsRequestFor(q: Msg, m: Msg)
    requires m.AppendReply?
  {
    && q.AppendReq? && q.src == m.dst && q.dst == m.src && q.rid == m.rid && q.term == m.reqTerm
    && q.prevIndex == m.prevIndex && |q.entries| == m.count
  }

  ghost predicate Requested(msgs: set<Msg>, m: Msg)
    requires m.AppendReply?
  {
    exists q {:trigger IsRequestFor(q, m)} :: q in msgs && IsRequestFor(q, m)
  }

  /** What a section's replication replies say of the node that sends them. */
  lemma ReplyOf(n: NodeState, call: Call, m: Msg)
    requires CanCall(n, call) && m in Handle(n, call).sends && m.AppendReply?
    ensures call.Receive? && IsRequestFor(call.m, m) && m.src == n.cfg.id
    ensures m.success ==> Handle(n, call).node.currentTerm == m.reqTerm
  {
    match call {
      case Receive(q, _) => if q.AppendReq? { AppendReplyOf(n, q, m); }
      case _ =>
    }
  }

  lemma AppendReplyOf(n: NodeState, q: Msg, m: Msg)
    requires q.AppendReq? && n.entries != [] && q.dst == n.cfg.id && m in OnAppend(n, q).sends
    ensures m.AppendReply? && IsRequestFor(q, m) && m.src == n.cfg.id
    ensures m.success ==> OnAppend(n, q).node.currentTerm == m.reqTerm
  {
  }

  lemma {:induction false} ReplyRequested(run: seq<ClusterState>, steps: seq<Step>, i: nat, m: Msg)
    requires IsRun(run, steps) && i < |run| && m in run[i].msgs && m.AppendReply?
    ensures Requested(run[i].msgs, m)
    decreases i
  {
    if i > 0 {
      var h := i - 1;
      assert RunStep(run, steps, h);
      if m in run[h].msgs {
        ReplyRequested(run, steps, h, m);
        var q :| q in run[h].msgs && IsRequestFor(q, m);
        assert q in run[i].msgs && IsRequestFor(q, m);
      } else {
        var n := StepNode(run, steps, h);
        ReplyOf(n, steps[h].call, m);
        assert steps[h].call.m in run[i].msgs && IsRequestFor(steps[h].call.m, m);
      }
    }
  }

  lemma StepNode(run: seq<ClusterState>, steps: seq<Step>, h: nat) returns (n: NodeState)
    requires IsRun(run, steps) && h < |steps|
    ensures CanStep(run[h], steps[h]) && n == run[h].nodes[steps[h].v] && n.cfg.id == steps[h].v
    ensures run[h + 1] == Take(run[h], steps[h])
  {
    assert RunStep(run, steps, h);
    n := run[h].nodes[steps[h].v];
    var s := StateOf(run, steps, h);
    NodeOf(run[h], s, steps[h].v);
  }

  /** A success reply that was not there at i comes from a node that was at most in its term at i. */
  lemma {:induction false} NewAck(run: seq<ClusterState>, steps: seq<Step>, i: nat, j: nat, m: Msg)
    requires IsRun(run, steps) && i <= j < |run| && m.AppendReply? && m.success
    requires m in run[j].msgs && m !in run[i].msgs
    ensures m.src in run[i].nodes && run[i].nodes[m.src].currentTerm <= m.reqTerm
    decreases j
  {
    var h := j - 1;
    var n := StepNode(run, steps, h);
    if m in run[h].msgs {
      NewAck(run, steps, i, h, m);
    } else {
      ReplyOf(n, steps[h].call, m);
      TermsRise(run, steps, i, j, m.src);
    }
  }

  lemma TermsRise(run: seq<ClusterState>, steps: seq<Step>, i: nat, j: nat, p: Id)
    requires IsRun(run, steps) && i <= j < |run| && p in run[j].nodes
    ensures p in run[i].nodes && run[i].nodes[p].currentTerm <= run[j].nodes[p].currentTerm
  {
    var s, s' := StatesOf(run, steps, i, j);
    NodeOf(run[j], s', p);
    NodeOf(run[i], s, p);
  }

  // ---- What the recorded index covers ----

  /** A quorum no member of which has left the term behind. */
  ghost predicate Confirmed(s: State, t: nat, acks: set<Id>) {
    && acks <= s.servers.Keys && |acks| >= Quorum(s)
    && (forall p :: p in acks ==> s.servers[p].term <= t)
  }

  /** No reign is later than a confirmed term. */
  lemma NoLaterReign(s: State, t: nat, acks: set<Id>, u: nat)
    requires Inv(s) && Confirmed(s, t, acks) && u in s.reigns
    ensures u <= t
  {
    assert GoodReign(s, u);
    var p := QuorumsMeet(s.servers.Keys, acks, s.reigns[u].voters);
    assert GoodVote(s, p, u);
  }

  /** A confirmed leader with a commit in its own term has announced as much as anyone. */
  lemma CommitIsHighest(s: State, t: nat, acks: set<Id>, u: nat)
    requires Inv(s) && Confirmed(s, t, acks) && t in s.reigns && u in s.reigns
    requires s.reigns[t].commit <= |s.reigns[t].log| && TermAt(s.reigns[t].log, s.reigns[t].commit) == t
    ensures s.reigns[u].commit <= s.reigns[t].commit
  {
    assert Announced(s, u);
    if s.reigns[u].commit > 0 {
      var r := s.reigns[u].root;
      var k := s.reigns[r].commit;
      NoLaterReign(s, t, acks, r);
      if r < t {
        CommittedChoosable(s, r, k);
        assert Complete(s, r, t, k) && GoodReign(s, t);
      }
    }
  }

  // ---- Over runs ----

  /** The reply answers a request its leader sent after state i. */
  ghost predicate FreshAck(c: ClusterState, c': ClusterState, v: Id, p: Id, t: nat, m: Msg) {
    && m in c'.msgs && m.AppendReply? && m.success && m.src == p && m.dst == v && m.reqTerm == t
    && !Requested(c.msgs, m)
  }

  /** v, leading at c, has by c' been acknowledged in that term by a quorum, by requests sent since. */
  ghost predicate LeadershipConfirmed(c: ClusterState, c': ClusterState, v: Id, acks: set<Id>) {
    && v in c.nodes && c.nodes[v].role == Leader
    && v in acks && acks <= c.nodes.Keys && |acks| >= c.nodes[v].cfg.quorum
    && (forall p {:trigger p in acks} :: p in acks && p != v ==>
          exists m :: FreshAck(c, c', v, p, c.nodes[v].currentTerm, m))
  }

  /** The recorded commit index sits on an entry of the leader's own term. */
  predicate OwnTermCommit(n: NodeState) {
    TermOf(n, n.commitIndex) == Some(n.currentTerm)
  }

  lemma ConfirmedIn(run: seq<ClusterState>, steps: seq<Step>, i: nat, j: nat, v: Id, acks: set<Id>, s: State)
    requires IsRun(run, steps) && i <= j < |run| && LeadershipConfirmed(run[i], run[j], v, acks) && Matched(run[i], s)
    ensures Confirmed(s, run[i].nodes[v].currentTerm, acks)
  {
    var t := run[i].nodes[v].currentTerm;
    NodeOf(run[i], s, v);
    forall p | p in acks ensures s.servers[p].term <= t {
      NodeOf(run[i], s, p);
      if p != v {
        var m :| FreshAck(run[i], run[j], v, p, t, m);
        if m in run[i].msgs { ReplyRequested(run, steps, i, m); }
        NewAck(run, steps, i, j, m);
      }
    }
  }

  lemma HighestInState(c: ClusterState, s: State, v: Id, acks: set<Id>, u: nat)
    requires Matched(c, s) && v in c.nodes && c.nodes[v].role == Leader && OwnTermCommit(c.nodes[v])
    requires Confirmed(s, c.nodes[v].currentTerm, acks) && u in s.reigns
    ensures s.reigns[u].commit <= c.nodes[v].commitIndex
  {
    var n := c.nodes[v];
    NodeOf(c, s, v);
    LeaderReigns(c, s, v);
    Compaction.TermTransparent(n.entries, n.snapshotIndex, s.servers[v].log, n.commitIndex);
    CommitIsHighest(s, n.currentTerm, acks, u);
  }

  /** A node's commit index is covered by a leader's announcement, then and later. */
  lemma CommitUnder(c0: ClusterState, s0: State, s: State, u: Id) returns (t: nat)
    requires Matched(c0, s0) && Later(s0, s) && u in c0.nodes && c0.nodes[u].commitIndex > 0
    ensures t in s.reigns && c0.nodes[u].commitIndex <= s.reigns[t].commit
  {
    NodeOf(c0, s0, u);
    t := s0.servers[u].cert;
    assert ReignLater(s0, s, t);
  }

  /** Whatever any node had committed by the time the index was recorded, the index covers. */
  lemma ReadIndexCovers(run: seq<ClusterState>, steps: seq<Step>, h: nat, i: nat, j: nat, v: Id, acks: set<Id>, u: Id)
    requires IsRun(run, steps) && h <= i <= j < |run| && u in run[h].nodes
    requires LeadershipConfirmed(run[i], run[j], v, acks) && OwnTermCommit(run[i].nodes[v])
    ensures run[h].nodes[u].commitIndex <= run[i].nodes[v].commitIndex
  {
    var s0, s := StatesOf(run, steps, h, i);
    if run[h].nodes[u].commitIndex > 0 {
      var t := CommitUnder(run[h], s0, s, u);
      ConfirmedIn(run, steps, i, j, v, acks, s);
      HighestInState(run[i], s, v, acks, t);
    }
  }

  /** The same for every entry any state machine had been handed. */
  lemma ReadIndexCoversApplied(run: seq<ClusterState>, steps: seq<Step>, i: nat, j: nat, v: Id, acks: set<Id>, e: Entry)
    requires IsRun(run, steps) && i <= j < |run| && e in run[i].applied
    requires LeadershipConfirmed(run[i], run[j], v, acks) && OwnTermCommit(run[i].nodes[v])
    ensures e.index <= run[i].nodes[v].commitIndex
  {
    var s := StateOf(run, steps, i);
    assert EntryCertified(s, e);
    var t :| t in s.reigns && 0 < e.index <= s.reigns[t].commit && e.index <= |s.reigns[t].log| && s.reigns[t].log[e.index - 1] == e;
    ConfirmedIn(run, steps, i, j, v, acks, s);
    HighestInState(run[i], s, v, acks, t);
  }

  lemma AgreedSplit(a: Log, b: Log, k: nat, k': nat)
    requires Agree(a, b, k) && k <= k' <= |b|
    ensures b[..k'] == a[..k] + b[k..k']
  {
  }

  lemma ContinuesInStates(c: ClusterState, s: State, c': ClusterState, s': State, u: Id, v: Id) returns (seen: Log, more: Log)
    requires Matched(c, s) && FoldInv(c, s) && Matched(c', s') && FoldInv(c', s') && Later(s, s')
    requires u in c.nodes && v in c'.nodes && c.nodes[u].lastApplied <= c'.nodes[v].lastApplied
    ensures c.nodes[u].machine == Fold(seen) && c'.nodes[v].machine == Fold(seen + more)
    ensures |seen| == c.nodes[u].lastApplied && |seen + more| == c'.nodes[v].lastApplied
    ensures IsAppliedLog(c, seen) && IsAppliedLog(c', seen + more)
  {
    NodeAppliedLog(c, s, u);
    NodeAppliedLog(c', s', v);
    FoldOf(c, s, u);
    FoldOf(c', s', v);
    var a, b := s.servers[u], s'.servers[v];
    var k, k' := c.nodes[u].lastApplied, c'.nodes[v].lastApplied;
    CertifiedLater(s, s', a.log, k, a.cert);
    CertifiedAgree(s', a.log, k, a.cert, b.log, k', b.cert);
    seen, more := a.log[..k], b.log[k..k'];
    AgreedSplit(a.log, b.log, k, k');
  }

  /**
   Linearizability of the read: once v has applied up to the recorded index, its jukebox is a
   continuation of every jukebox any node had when the read began.
   */
  lemma ReadReflects(run: seq<ClusterState>, steps: seq<Step>, h: nat, i: nat, j: nat, l: nat, v: Id, acks: set<Id>, u: Id)
    returns (seen: Log, more: Log)
    requires IsRun(run, steps) && FoldRun(run, steps) && h <= i <= j <= l < |run| && u in run[h].nodes && v in run[l].nodes
    requires LeadershipConfirmed(run[i], run[j], v, acks) && OwnTermCommit(run[i].nodes[v])
    requires run[l].nodes[v].lastApplied >= run[i].nodes[v].commitIndex
    ensures run[h].nodes[u].machine == Fold(seen) && run[l].nodes[v].machine == Fold(seen + more)
    ensures |seen| == run[h].nodes[u].lastApplied && |seen + more| == run[l].nodes[v].lastApplied
    ensures IsAppliedLog(run[h], seen) && IsAppliedLog(run[l], seen + more)
  {
    ReadIndexCovers(run, steps, h, i, j, v, acks, u);
    CursorsOrdered(run, steps, h, u);
    var s, s' := StatesOf(run, steps, h, l);
    seen, more := ContinuesInStates(run[h], s, run[l], s', u, v);
  }

  /** A certified prefix no longer than what v has applied is a prefix of what v's jukebox is the fold of. */
  lemma CertifiedInFold(c: ClusterState, s: State, v: Id, lead: Log, k: nat, t: nat) returns (log: Log)
    requires Matched(c, s) && FoldInv(c, s) && v in c.nodes && Certified(s, lead, k, t) && k <= c.nodes[v].lastApplied
    ensures c.nodes[v].machine == Fold(log) && Agree(log, lead, k) && |log| == c.nodes[v].lastApplied && IsAppliedLog(c, log)
  {
    NodeAppliedLog(c, s, v);
    FoldOf(c, s, v);
    var b, applied := s.servers[v], c.nodes[v].lastApplied;
    CertifiedAgree(s, lead, k, t, b.log, applied, b.cert);
    log := b.log[..applied];
  }

  lemma AnsweredInStates(c: ClusterState, s: State, c': ClusterState, s': State, v: Id, acks: set<Id>, a: Answer) returns (log: Log)
    requires Matched(c, s) && FoldInv(c, s) && Matched(c', s') && FoldInv(c', s') && Later(s, s')
    requires v in c.nodes && v in c'.nodes && a in c.answers && c.nodes[v].role == Leader && OwnTermCommit(c.nodes[v])
    requires Confirmed(s, c.nodes[v].currentTerm, acks) && c'.nodes[v].lastApplied >= c.nodes[v].commitIndex
    ensures c'.nodes[v].machine == Fold(log) && InLog(log, Entry(a.term, a.index, a.payload))
    ensures |log| == c'.nodes[v].lastApplied && IsAppliedLog(c', log)
    ensures a.result == Apply(Fold(log[..a.index - 1]), a.payload).1
  {
    assert Truthful(s, a);
    var t, lead := AnswerReign(s, a);
    HighestInState(c, s, v, acks, t);
    CertifiedLater(s, s', lead, a.index, t);
    log := CertifiedInFold(c', s', v, lead, a.index, t);
    AnswerOnLog(lead, log, a);
  }

  lemma AnswerOnLog(lead: Log, log: Log, a: Answer)
    requires InLog(lead, Entry(a.term, a.index, a.payload)) && a.result == Apply(Fold(lead[..a.index - 1]), a.payload).1
    requires Agree(log, lead, a.index)
    ensures InLog(log, Entry(a.term, a.index, a.payload)) && a.result == Apply(Fold(log[..a.index - 1]), a.payload).1
  {
    SameSlice(log, lead, a.index - 1, a.index);
  }

  /** The committed log an answer is about. */
  lemma AnswerReign(s: State, a: Answer) returns (t: nat, lead: Log)
    requires Truthful(s, a)
    ensures t in s.reigns && 0 < a.index <= s.reigns[t].commit && Certified(s, lead, a.index, t)
    ensures InLog(lead, Entry(a.term, a.index, a.payload)) && a.result == Apply(Fold(lead[..a.index - 1]), a.payload).1
  {
    t :| t in s.reigns && 0 < a.index <= s.reigns[t].commit && a.index <= |s.reigns[t].log|
      && s.reigns[t].log[a.index - 1] == Entry(a.term, a.index, a.payload)
      && a.result == Apply(Fold(s.reigns[t].log[..a.index - 1]), a.payload).1;
    lead := s.reigns[t].log;
  }

  /** A write answered before the read began is part of what the read sees. */
  lemma ReadSeesAnswered(run: seq<ClusterState>, steps: seq<Step>, i: nat, j: nat, l: nat, v: Id, acks: set<Id>, a: Answer)
    returns (log: Log)
    requires IsRun(run, steps) && FoldRun(run, steps) && i <= j <= l < |run| && v in run[l].nodes && a in run[i].answers
    requires LeadershipConfirmed(run[i], run[j], v, acks) && OwnTermCommit(run[i].nodes[v])
    requires run[l].nodes[v].lastApplied >= run[i].nodes[v].commitIndex
    ensures run[l].nodes[v].machine == Fold(log) && InLog(log, Entry(a.term, a.index, a.payload))
    ensures |log| == run[l].nodes[v].lastApplied && IsAppliedLog(run[l], log)
    ensures a.result == Apply(Fold(log[..a.index - 1]), a.payload).1
  {
    var s, s' := StatesOf(run, steps, i, l);
    ConfirmedIn(run, steps, i, j, v, acks, s);
    log := AnsweredInStates(run[i], s, run[l], s', v, acks, a);
  }
}
