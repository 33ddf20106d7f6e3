/** The count of a pre-vote round (internal/raft/election.go:94-150). */
module VoteCount {
  import opened JukeboxTypes
  import opened Node

  /** The positions of the answers that grant. */
  ghost function Grants(replies: seq<Option<Msg>>): set<nat> {
    set i: nat | i < |replies| && replies[i].Some? && replies[i].value.VoteReply? && replies[i].value.granted
  }

  lemma GrantsLast(replies: seq<Option<Msg>>, k: nat)
    requires k < |replies|
    ensures |Grants(replies[..k + 1])| ==
      |Grants(replies[..k])| + (if replies[k].Some? && replies[k].value.VoteReply? && replies[k].value.granted then 1 else 0)
  {
    var granted := replies[k].Some? && replies[k].value.VoteReply? && replies[k].value.granted;
    assert Grants(replies[..k + 1]) == Grants(replies[..k]) + (if granted then {k} else {});
  }
}

/**
 Votes and pre-votes (internal/raft/election.go): exactly when each is granted, and that while a quorum hears
 a leader no pre-vote round is won, so that no node enters a new term and the leader stays one.
 */
module PreVote {
  import opened JukeboxTypes
  import opened RaftLog
  import opened Storage
  import opened Node
  import opened Cluster
  import opened Consensus
  import opened Relation
  import opened Theorems
  import opened Mirror
  import opened FreeRuns
  import opened Submits
  import opened VoteCount

  // ---- When a vote is granted ----

  /** The claimed last entry is of a later term than the node's, or of the same term and no shorter a log. */
  ghost predicate LogAtLeast(n: NodeState, m: Msg)
    requires m.VoteReq? && n.entries != []
  {
    var last := n.entries[|n.entries| - 1];
    m.lastTerm > last.term || (m.lastTerm == last.term && m.lastIndex >= last.index)
  }

  /** One answer in the node's term, and nothing applied or told. */
  ghost predicate OneAnswer(n: NodeState, m: Msg, o: Out, r: Msg)
    requires m.VoteReq?
  {
    o.sends == {r} && r.VoteReply? && r == VoteReply(n.cfg.id, m.src, m.term, m.preVote, o.node.currentTerm, r.granted) && o.applied == [] && o.answers == {}
  }

  /**
   A pre-vote changes nothing and is granted if and only if its term is not lower, its log at least the node's, and no
   leader was heard lately.
   */
  lemma PreVoteIff(n: NodeState, m: Msg, calm: bool) returns (r: Msg)
    requires m.VoteReq? && m.preVote && n.entries != []
    ensures var o := OnVote(n, m, calm);
      && OneAnswer(n, m, o, r) && o.node == n && o.writes == []
      && (r.granted <==> m.term >= n.currentTerm && LogAtLeast(n, m) && calm)
  {
    r := VoteReply(n.cfg.id, m.src, m.term, true, n.currentTerm, m.term >= n.currentTerm && LogAtLeast(n, m) && calm);
  }

  /**
   A vote is granted if and only if its term is not lower, its log at least the node's, and the node's vote of that term
   unspent or already this candidate's; it is recorded, and in storage, when the answer is sent.
   */
  lemma VoteIff(n: NodeState, m: Msg, calm: bool, d: Disk) returns (r: Msg)
    requires m.VoteReq? && !m.preVote && n.entries != [] && d.hard == HardOf(n)
    ensures var o := OnVote(n, m, calm);
      && OneAnswer(n, m, o, r) && o.node.currentTerm == Max(n.currentTerm, m.term)
      && (r.granted <==> m.term >= n.currentTerm && LogAtLeast(n, m) && (m.term > n.currentTerm || n.votedFor in {"", m.src}))
      && o.node.votedFor == (if r.granted then m.src else if m.term > n.currentTerm then "" else n.votedFor)
      && Replay(d, o.writes) == d.(hard := HardOf(o.node))
      && (m.term <= n.currentTerm ==> o.node == n.(votedFor := o.node.votedFor))
      && (m.term > n.currentTerm ==> o.node == StepDown(n, m.term).(votedFor := o.node.votedFor))
  {
    r := VoteReply(n.cfg.id, m.src, m.term, false, Max(n.currentTerm, m.term),
                   m.term >= n.currentTerm && LogAtLeast(n, m) && (m.term > n.currentTerm || n.votedFor in {"", m.src}));
    if m.term >= n.currentTerm {
      var n1 := Observe(n, m.term);
      assert OnVote(n, m, calm) == After(n, m.term, VoteInTerm(n1, m));
      ReplaySplit(d, ObserveWrites(n, m.term), VoteInTerm(n1, m).writes);
    }
  }

  // ---- One round of pre-votes ----

  /** What each peer of a cluster is asked. */
  function Ask(cfg: Config, i: nat, term: nat, lastIndex: nat, lastTerm: nat): Msg
    requires i < |cfg.peers|
  {
    VoteReq(cfg.id, cfg.peers[i], term, lastIndex, lastTerm, true)
  }

  /** Answer i is what a node gives that request. */
  ghost predicate AnswerOf(f: NodeState, calm: bool, q: Msg, reply: Option<Msg>) {
    reply.Some? ==> q.VoteReq? && f.entries != [] && OnVote(f, q, calm).sends == {reply.value}
  }

  /** The peers' states and calm when they handled the request, and what came back. */
  ghost predicate Polled(cfg: Config, term: nat, lastIndex: nat, lastTerm: nat, fs: seq<NodeState>, calm: seq<bool>, replies: seq<Option<Msg>>) {
    && |fs| == |calm| == |replies| == |cfg.peers|
    && forall i: nat :: i < |replies| ==> AnswerOf(fs[i], calm[i], Ask(cfg, i, term, lastIndex, lastTerm), replies[i])
  }

  /** A peer that hears a leader does not grant. */
  lemma HearingDenies(f: NodeState, q: Msg, reply: Option<Msg>)
    requires q.VoteReq? && q.preVote && AnswerOf(f, false, q, reply) && reply.Some?
    ensures reply.value.VoteReply? && !reply.value.granted
  {
    var r := PreVoteIff(f, q, false);
    assert reply.value in OnVote(f, q, false).sends;
  }

  ghost function PeersAt(cfg: Config, s: set<nat>): set<Id>
    requires forall i :: i in s ==> i < |cfg.peers|
  {
    set i | i in s :: cfg.peers[i]
  }

  lemma {:induction false} PeersAtSize(cfg: Config, s: set<nat>)
    requires (forall i :: i in s ==> i < |cfg.peers|) && forall i, j :: 0 <= i < j < |cfg.peers| ==> cfg.peers[i] != cfg.peers[j]
    ensures |PeersAt(cfg, s)| == |s|
    decreases |s|
  {
    if s != {} {
      var i :| i in s;
      PeersAtSize(cfg, s - {i});
      assert PeersAt(cfg, s) == PeersAt(cfg, s - {i}) + {cfg.peers[i]};
      assert cfg.peers[i] !in PeersAt(cfg, s - {i});
    } else {
      assert PeersAt(cfg, s) == {};
    }
  }

  /** While a quorum hears a leader, no other node wins a round of pre-votes. */
  lemma RoundLost(ids: set<Id>, v: Id, cfg: Config, term: nat, lastIndex: nat, lastTerm: nat,
                  fs: seq<NodeState>, calm: seq<bool>, replies: seq<Option<Msg>>, hearing: set<Id>)
    requires v in ids && GoodConfig(ids, v, cfg) && Polled(cfg, term, lastIndex, lastTerm, fs, calm, replies)
    requires hearing <= ids && |hearing| >= cfg.quorum && v !in hearing
    requires forall i: nat :: i < |calm| && cfg.peers[i] in hearing ==> !calm[i]
    ensures 1 + |Grants(replies)| < cfg.quorum
  {
    var grants := Grants(replies);
    var granting := PeersAt(cfg, grants);
    PeersAtSize(cfg, grants);
    forall p | p in granting ensures p in ids && p != v && p !in hearing {
      var i :| i in grants && cfg.peers[i] == p;
      if p in hearing {
        assert AnswerOf(fs[i], calm[i], Ask(cfg, i, term, lastIndex, lastTerm), replies[i]);
        HearingDenies(fs[i], Ask(cfg, i, term, lastIndex, lastTerm), replies[i]);
      }
    }
    SubsetSize(granting + {v} + hearing, ids);
    assert |granting + {v} + hearing| == |granting| + 1 + |hearing|;
  }

  /** A round counts the peers that answer, are in no later term, have no better log and hear no leader. */
  lemma GrantsAre(cfg: Config, term: nat, lastIndex: nat, lastTerm: nat, fs: seq<NodeState>, calm: seq<bool>, replies: seq<Option<Msg>>, i: nat)
    requires Polled(cfg, term, lastIndex, lastTerm, fs, calm, replies) && i < |replies|
    ensures replies[i].Some? ==> fs[i].entries != []
    ensures i in Grants(replies) <==>
      replies[i].Some? && term >= fs[i].currentTerm && LogAtLeast(fs[i], Ask(cfg, i, term, lastIndex, lastTerm)) && calm[i]
  {
    var q := Ask(cfg, i, term, lastIndex, lastTerm);
    assert AnswerOf(fs[i], calm[i], q, replies[i]);
    if replies[i].Some? {
      var r := PreVoteIff(fs[i], q, calm[i]);
      assert replies[i].value in OnVote(fs[i], q, calm[i]).sends;
    }
  }

  // ---- A window in which a quorum hears a leader ----

  /** A round of pre-votes, each answered at some state from a to i; those that hear a leader are not calm. */
  ghost predicate Gathered(run: seq<ClusterState>, a: nat, i: nat, v: Id, bid: Bid, hearing: set<Id>, at: seq<nat>, calm: seq<bool>, replies: seq<Option<Msg>>)
    requires i < |run| && v in run[i].nodes
  {
    var cfg := run[i].nodes[v].cfg;
    && |at| == |calm| == |replies| == |cfg.peers|
    && forall x: nat :: x < |replies| ==>
         && a <= at[x] <= i && cfg.peers[x] in run[at[x]].nodes && (cfg.peers[x] in hearing ==> !calm[x])
         && AnswerOf(run[at[x]].nodes[cfg.peers[x]], calm[x], Ask(cfg, x, bid.base + 1, bid.lastIndex, bid.lastTerm), replies[x])
  }

  /** Whoever stands hears no leader and has won a round of pre-votes gathered since a. */
  ghost predicate BackedElection(run: seq<ClusterState>, steps: seq<Step>, a: nat, i: nat, hearing: set<Id>)
    requires i < |run| && i < |steps|
  {
    steps[i].call.Elect? ==>
      && steps[i].v in run[i].nodes && steps[i].v !in hearing
      && exists at, calm, replies :: Gathered(run, a, i, steps[i].v, steps[i].call.bid, hearing, at, calm, replies)
                                    && 1 + |Grants(replies)| >= run[i].nodes[steps[i].v].cfg.quorum
  }

  /**
   From state a to state b a quorum hears a leader: a node that does stands in no election, and refuses pre-votes;
   every election of the others is backed by pre-votes gathered since.
   */
  ghost predicate Window(run: seq<ClusterState>, steps: seq<Step>, a: nat, b: nat, hearing: set<Id>) {
    && |run| == |steps| + 1 && a <= b < |run|
    && hearing <= run[a].nodes.Keys && |hearing| >= |run[a].nodes.Keys| / 2 + 1
    && forall i: nat {:trigger BackedElection(run, steps, a, i, hearing)} :: a <= i < b ==> BackedElection(run, steps, a, i, hearing)
  }

  lemma NoElection(run: seq<ClusterState>, steps: seq<Step>, a: nat, b: nat, i: nat, hearing: set<Id>)
    requires IsFreeRun(run, steps) && Window(run, steps, a, b, hearing) && a <= i < b
    ensures !steps[i].call.Elect?
  {
    if steps[i].call.Elect? {
      assert BackedElection(run, steps, a, i, hearing);
      var v := steps[i].v;
      var at, calm, replies :| Gathered(run, a, i, v, steps[i].call.bid, hearing, at, calm, replies) && 1 + |Grants(replies)| >= run[i].nodes[v].cfg.quorum;
      GatheredLoses(run, steps, a, i, v, steps[i].call.bid, hearing, at, calm, replies);
    }
  }

  lemma GatheredLoses(run: seq<ClusterState>, steps: seq<Step>, a: nat, i: nat, v: Id, bid: Bid, hearing: set<Id>, at: seq<nat>, calm: seq<bool>, replies: seq<Option<Msg>>)
    requires IsFreeRun(run, steps) && a <= i < |run| && v in run[i].nodes && v !in hearing
    requires hearing <= run[a].nodes.Keys && |hearing| >= |run[a].nodes.Keys| / 2 + 1
    requires Gathered(run, a, i, v, bid, hearing, at, calm, replies)
    ensures 1 + |Grants(replies)| < run[i].nodes[v].cfg.quorum
  {
    FreeRunInv(run, steps, i);
    assert Placed(run[i], v);
    MessagesStay(run, steps, a, i);
    var cfg := run[i].nodes[v].cfg;
    var fs := seq(|replies|, x requires 0 <= x < |replies| => run[at[x]].nodes[cfg.peers[x]]);
    assert Polled(cfg, bid.base + 1, bid.lastIndex, bid.lastTerm, fs, calm, replies);
    RoundLost(run[i].nodes.Keys, v, cfg, bid.base + 1, bid.lastIndex, bid.lastTerm, fs, calm, replies, hearing);
  }

  // ---- No new term in the window ----

  /** What the message can raise a term to. */
  predicate MsgUpTo(m: Msg, t: nat) {
    match m
    case VoteReq(_, _, term, _, _, preVote) => preVote || term <= t
    case VoteReply(_, _, _, _, term, _) => term <= t
    case AppendReq(_, _, _, term, _, _, _, _) => term <= t
    case AppendReply(_, _, _, _, _, _, term, _, _, _) => term <= t
    case SnapReq(_, _, term, _, _, _) => term <= t
    case SnapReply(_, _, _, _, term) => term <= t
  }

  ghost predicate NodeUpTo(c: ClusterState, v: Id, t: nat) {
    v in c.nodes ==> c.nodes[v].currentTerm <= t
  }

  /** Neither a node nor a message is in a term above t. */
  ghost predicate TermsUpTo(c: ClusterState, t: nat) {
    && (forall v {:trigger NodeUpTo(c, v, t)} :: NodeUpTo(c, v, t))
    && (forall m {:trigger MsgUpTo(m, t)} :: m in c.msgs ==> MsgUpTo(m, t))
  }

  predicate WriteUpTo(w: Write, t: nat) {
    w.SaveHard? ==> w.hard.term <= t
  }

  ghost predicate OutUpTo(o: Out, t: nat) {
    && o.node.currentTerm <= t
    && (forall m {:trigger MsgUpTo(m, t)} :: m in o.sends ==> MsgUpTo(m, t))
    && (forall i :: 0 <= i < |o.writes| ==> WriteUpTo(o.writes[i], t))
  }

  lemma VoteUpTo(n: NodeState, m: Msg, calm: bool, t: nat)
    requires n.entries != [] && n.currentTerm <= t && MsgUpTo(m, t) && m.VoteReq?
    ensures OutUpTo(OnVote(n, m, calm), t)
  {
  }

  lemma VoteReplyUpTo(n: NodeState, m: Msg, t: nat)
    requires n.entries != [] && n.currentTerm <= t && MsgUpTo(m, t) && m.VoteReply?
    ensures OutUpTo(OnVoteReply(n, m), t)
  {
  }

  lemma {:induction false} CutsUpTo(entries: seq<Entry>, snap: nat, es: seq<Entry>, t: nat)
    requires entries != []
    ensures forall i :: 0 <= i < |Merge(entries, snap, es).cuts| ==> WriteUpTo(Merge(entries, snap, es).cuts[i], t)
    decreases |es|
  {
    if es != [] {
      var e := es[0];
      CutsUpTo(entries, snap, es[1..], t);
      CutsUpTo(entries + [e], snap, es[1..], t);
      if snap < e.index && TermIn(entries, snap, e.index).Some? { CutsUpTo(entries[..e.index - snap] + [e], snap, es[1..], t); }
    }
  }

  lemma AppendUpTo(n: NodeState, m: Msg, t: nat)
    requires n.entries != [] && n.currentTerm <= t && MsgUpTo(m, t) && m.AppendReq?
    ensures OutUpTo(OnAppend(n, m), t)
  {
    CutsUpTo(n.entries, n.snapshotIndex, m.entries, t);
  }

  lemma ReplyUpTo(n: NodeState, m: Msg, t: nat)
    requires n.entries != [] && n.currentTerm <= t && MsgUpTo(m, t)
    ensures m.AppendReply? ==> OutUpTo(OnAppendReply(n, m), t)
    ensures m.SnapReply? ==> OutUpTo(OnSnapReply(n, m), t)
    ensures m.SnapReq? ==> OutUpTo(OnSnapshot(n, m), t)
  {
  }

  /** No section but an election raises the term beyond what it is shown. */
  lemma CallUpTo(n: NodeState, call: Call, t: nat)
    requires CanCall(n, call) && !call.Elect? && n.currentTerm <= t && (call.Receive? ==> MsgUpTo(call.m, t))
    ensures OutUpTo(Handle(n, call), t)
  {
    match call {
      case Receive(m, calm) =>
        if m.VoteReq? { VoteUpTo(n, m, calm, t); }
        else if m.VoteReply? { VoteReplyUpTo(n, m, t); }
        else if m.AppendReq? { AppendUpTo(n, m, t); }
        else { ReplyUpTo(n, m, t); }
      case _ =>
    }
  }

  lemma {:induction false} ReplayUpTo(d: Disk, ws: seq<Write>, t: nat)
    requires d.hard.term <= t && forall i :: 0 <= i < |ws| ==> WriteUpTo(ws[i], t)
    ensures Replay(d, ws).hard.term <= t
    decreases |ws|
  {
    if ws != [] {
      assert WriteUpTo(ws[0], t);
      ReplayUpTo(Do(d, ws[0]), ws[1..], t);
    }
  }

  lemma StepUpTo(c: ClusterState, step: Step, t: nat)
    requires FreeInv(c) && CanStep(c, step) && !step.call.Elect? && TermsUpTo(c, t)
    ensures TermsUpTo(Take(c, step), t)
  {
    var v, c' := step.v, Take(c, step);
    var n := c.nodes[v];
    assert Placed(c, v) && NodeUpTo(c, v, t);
    CallUpTo(n, step.call, t);
    if step.Crash? {
      var log :| MirrorsBy(n, c.disks[v], log);
      ReplayUpTo(c.disks[v], Handle(n, step.call).writes[..step.at], t);
    }
    forall u ensures NodeUpTo(c', u, t) { assert NodeUpTo(c, u, t); }
    forall m | m in c'.msgs ensures MsgUpTo(m, t) { }
  }

  /** While a quorum hears a leader, no node enters a term above those there are, crashes and late messages included. */
  lemma {:induction false} TermsHeld(run: seq<ClusterState>, steps: seq<Step>, a: nat, b: nat, hearing: set<Id>, t: nat)
    requires IsFreeRun(run, steps) && Window(run, steps, a, b, hearing) && TermsUpTo(run[a], t)
    ensures TermsUpTo(run[b], t)
    decreases b - a
  {
    if a < b {
      WindowShrinks(run, steps, a, b, hearing);
      TermsHeld(run, steps, a, b - 1, hearing, t);
      NoElection(run, steps, a, b, b - 1, hearing);
      FreeRunInv(run, steps, b - 1);
      assert FreeStep(run, steps, b - 1);
      StepUpTo(run[b - 1], steps[b - 1], t);
    }
  }

  lemma WindowShrinks(run: seq<ClusterState>, steps: seq<Step>, a: nat, b: nat, hearing: set<Id>)
    requires Window(run, steps, a, b, hearing) && a < b
    ensures Window(run, steps, a, b - 1, hearing)
  {
    forall i: nat | a <= i < b - 1 ensures BackedElection(run, steps, a, i, hearing) { }
  }

  // ---- The leader stays ----

  lemma MessageLeadsOn(n: NodeState, m: Msg, calm: bool, t: nat)
    requires Contiguous(n) && Leads(n, t) && MsgUpTo(m, t) && (m.AppendReq? || m.SnapReq? ==> m.term != t)
    ensures Leads(OnMessage(n, m, calm).node, t)
  {
  }

  lemma CallLeadsOn(n: NodeState, call: Call, t: nat)
    requires CanCall(n, call) && Leads(n, t) && (call.Receive? ==> MsgUpTo(call.m, t))
    requires call.Receive? && (call.m.AppendReq? || call.m.SnapReq?) ==> call.m.term != t
    ensures Leads(Handle(n, call).node, t)
  {
    match call {
      case Receive(m, calm) => MessageLeadsOn(n, m, calm, t);
      case _ =>
    }
  }

  ghost predicate NoCrashOf(steps: seq<Step>, a: nat, b: nat, v: Id) {
    forall i: nat :: a <= i < b && i < |steps| && steps[i].v == v ==> !steps[i].Crash?
  }

  /** A leader of the highest term, unless it crashes, stays one while a quorum hears it: no other node can depose it. */
  lemma {:induction false} LeaderUndisturbed(run: seq<ClusterState>, steps: seq<Step>, a: nat, b: nat, hearing: set<Id>, v: Id, t: nat)
    requires IsRun(run, steps) && Window(run, steps, a, b, hearing) && TermsUpTo(run[a], t)
    requires v in run[a].nodes && Leads(run[a].nodes[v], t) && NoCrashOf(steps, a, b, v)
    ensures v in run[b].nodes && Leads(run[b].nodes[v], t)
    decreases b - a
  {
    if a < b {
      var h := b - 1;
      RunIsFree(run, steps);
      WindowShrinks(run, steps, a, b, hearing);
      LeaderUndisturbed(run, steps, a, h, hearing, v, t);
      TermsHeld(run, steps, a, h, hearing, t);
      assert FreeStep(run, steps, h);
      if steps[h].v == v {
        var call := steps[h].call;
        if call.Receive? && (call.m.AppendReq? || call.m.SnapReq?) {
          FreeRunInv(run, steps, h);
          assert Placed(run[h], v);
          NoRival(run, steps, h, v, call.m);
        }
        CallLeadsOn(run[h].nodes[v], call, t);
      }
    }
  }
}
