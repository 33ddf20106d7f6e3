/** Candidates that stand again and again, and so reach any term. */
module Climbing {
  import opened JukeboxTypes
  import opened JukeboxSpec
  import opened RaftLog
  import opened Storage
  import opened Node
  import opened Cluster
  import opened Scenario

  function MyBid(n: NodeState): Bid
    requires n.entries != []
  {
    Bid(n.currentTerm, LastIndex(n), LastTermOf(n))
  }

  /** One more campaign, straight to its election. */
  function Climb(n: NodeState): NodeState
    requires n.entries != []
  {
    n.(currentTerm := n.currentTerm + 1, role := Candidate, votedFor := n.cfg.id, leaderId := "",
       ballot := Ballot(n.currentTerm + 1, {n.cfg.id}, false), bids := n.bids + {MyBid(n)})
  }

  function Asks(n: NodeState, t: nat, p: Id): Msg
    requires n.entries != []
  {
    VoteReq(n.cfg.id, p, t, LastIndex(n), LastTermOf(n), false)
  }

  ghost predicate CanClimb(n: NodeState) {
    Contiguous(n) && n.role != Leader && n.cfg.quorum == 2
  }

  lemma ClimbStep(n: NodeState)
    requires CanClimb(n)
    ensures CanCall(n, Timeout) && Handle(n, Timeout) == Silent(BeginCampaign(n), [])
    ensures CanCall(BeginCampaign(n), Elect(MyBid(n))) && Handle(BeginCampaign(n), Elect(MyBid(n))).node == Climb(n)
    ensures forall p :: p in n.cfg.peers ==> Asks(n, n.currentTerm + 1, p) in Handle(BeginCampaign(n), Elect(MyBid(n))).sends
  {
  }

  function Climbed(n: NodeState, m: nat): (r: NodeState)
    requires n.entries != []
    ensures r.entries == n.entries && r.cfg == n.cfg
  {
    if m == 0 then n else Climb(Climbed(n, m - 1))
  }

  lemma {:induction false} ClimbedIs(n: NodeState, m: nat)
    requires CanClimb(n)
    ensures CanClimb(Climbed(n, m))
    ensures m > 0 ==> Climbed(n, m) == n.(currentTerm := n.currentTerm + m, role := Candidate, votedFor := n.cfg.id, leaderId := "",
      ballot := Ballot(n.currentTerm + m, {n.cfg.id}, false), bids := Climbed(n, m).bids)
    decreases m
  {
    if m > 0 { ClimbedIs(n, m - 1); }
  }

  ghost predicate Asked(c: ClusterState, n: NodeState, t: nat)
    requires n.entries != []
  {
    forall p :: p in n.cfg.peers ==> Asks(n, t, p) in c.msgs
  }

  lemma ClimbOnceA(k: Trio, before: seq<ClusterState>, n: NodeState, b: NodeState, d: NodeState) returns (run: seq<ClusterState>)
    requires Distinct(k) && IsGuardedRun(before) && before != [] && At(k, Last(before), n, b, d) && CanClimb(n)
    ensures IsGuardedRun(run) && run != [] && At(k, Last(run), Climb(n), b, d) && Asked(Last(run), n, n.currentTerm + 1)
  {
    ClimbStep(n);
    run := MoveA(k, before, n, b, d, Timeout);
    run := MoveA(k, run, BeginCampaign(n), b, d, Elect(MyBid(n)));
  }

  lemma ClimbOnceB(k: Trio, before: seq<ClusterState>, a: NodeState, n: NodeState, d: NodeState) returns (run: seq<ClusterState>)
    requires Distinct(k) && IsGuardedRun(before) && before != [] && At(k, Last(before), a, n, d) && CanClimb(n)
    ensures IsGuardedRun(run) && run != [] && At(k, Last(run), a, Climb(n), d) && Asked(Last(run), n, n.currentTerm + 1)
  {
    ClimbStep(n);
    run := MoveB(k, before, a, n, d, Timeout);
    run := MoveB(k, run, a, BeginCampaign(n), d, Elect(MyBid(n)));
  }

  lemma {:induction false} ClimbA(k: Trio, before: seq<ClusterState>, a: NodeState, b: NodeState, d: NodeState, m: nat) returns (run: seq<ClusterState>)
    requires Distinct(k) && IsGuardedRun(before) && before != [] && At(k, Last(before), a, b, d) && CanClimb(a)
    ensures IsGuardedRun(run) && run != [] && At(k, Last(run), Climbed(a, m), b, d)
    ensures m > 0 ==> Asked(Last(run), a, a.currentTerm + m)
    decreases m
  {
    run := before;
    if m > 0 {
      run := ClimbA(k, before, a, b, d, m - 1);
      ClimbedIs(a, m - 1);
      run := ClimbOnceA(k, run, Climbed(a, m - 1), b, d);
    }
  }

  lemma {:induction false} ClimbB(k: Trio, before: seq<ClusterState>, a: NodeState, b: NodeState, d: NodeState, m: nat) returns (run: seq<ClusterState>)
    requires Distinct(k) && IsGuardedRun(before) && before != [] && At(k, Last(before), a, b, d) && CanClimb(b)
    ensures IsGuardedRun(run) && run != [] && At(k, Last(run), a, Climbed(b, m), d)
    ensures m > 0 ==> Asked(Last(run), b, b.currentTerm + m)
    decreases m
  {
    run := before;
    if m > 0 {
      run := ClimbB(k, before, a, b, d, m - 1);
      ClimbedIs(b, m - 1);
      run := ClimbOnceB(k, run, a, Climbed(b, m - 1), d);
    }
  }

  // ---- A leads any term with B's vote ----

  function Bare(k: Trio): Setup { Setup(k, -1, -1) }

  function LeadsA(k: Trio, t: nat): NodeState {
    BlankA(Bare(k)).(currentTerm := t, votedFor := k.a, bids := Climbed(BlankA(Bare(k)), t).bids,
      role := Leader, leaderId := k.a, ballot := Ballot(t, {k.a, k.b}, true),
      nextIndex := map[k.b := 1, k.c := 1], matchIndex := map[k.b := 0, k.c := 0], entries := [Sentinel(0, 0), Entry(t, 1, NOOP)])
  }

  function VotedB(k: Trio, t: nat): NodeState {
    BlankB(Bare(k)).(currentTerm := t, votedFor := k.a)
  }

  function AskB(k: Trio, t: nat): Msg { VoteReq(k.a, k.b, t, 0, 0, false) }
  function YesB(k: Trio, t: nat): Msg { VoteReply(k.b, k.a, t, false, t, true) }

  lemma VotesB(k: Trio, t: nat)
    requires Distinct(k) && t > 0
    ensures CanCall(BlankB(Bare(k)), Receive(AskB(k, t), true)) && Handle(BlankB(Bare(k)), Receive(AskB(k, t), true)).node == VotedB(k, t)
    ensures YesB(k, t) in Handle(BlankB(Bare(k)), Receive(AskB(k, t), true)).sends
  {
  }

  lemma WinsA(k: Trio, t: nat)
    requires Distinct(k) && t > 0
    ensures var n := Climbed(BlankA(Bare(k)), t);
      CanCall(n, Receive(YesB(k, t), true)) && Handle(n, Receive(YesB(k, t), true)).node == LeadsA(k, t)
  {
    var n := Climbed(BlankA(Bare(k)), t);
    ClimbedIs(BlankA(Bare(k)), t);
    assert {k.a} + {k.b} == {k.a, k.b};
    Elected(n.(ballot := Ballot(t, {k.a, k.b}, true)), k.b, k.c);
    assert n.entries + [Entry(t, 1, NOOP)] == LeadsA(k, t).entries;
  }

  lemma FirstLeader(k: Trio, t: nat) returns (run: seq<ClusterState>)
    requires Distinct(k) && t > 0
    ensures IsGuardedRun(run) && run != [] && At(k, Last(run), LeadsA(k, t), VotedB(k, t), BlankC(Bare(k)))
  {
    var s := Bare(k);
    OpeningStarts(s);
    run := [Opening(s)];
    run := ClimbA(k, run, BlankA(s), BlankB(s), BlankC(s), t);
    assert k.b == BlankA(s).cfg.peers[0] && Asks(BlankA(s), t, k.b) == AskB(k, t);
    run := FirstVote(k, t, run);
  }

  lemma FirstVote(k: Trio, t: nat, before: seq<ClusterState>) returns (run: seq<ClusterState>)
    requires Distinct(k) && t > 0 && IsGuardedRun(before) && before != []
    requires At(k, Last(before), Climbed(BlankA(Bare(k)), t), BlankB(Bare(k)), BlankC(Bare(k))) && AskB(k, t) in Last(before).msgs
    ensures IsGuardedRun(run) && run != [] && At(k, Last(run), LeadsA(k, t), VotedB(k, t), BlankC(Bare(k)))
  {
    var s := Bare(k);
    VotesB(k, t);
    WinsA(k, t);
    run := MoveB(k, before, Climbed(BlankA(s), t), BlankB(s), BlankC(s), Receive(AskB(k, t), true));
    run := MoveA(k, run, Climbed(BlankA(s), t), VotedB(k, t), BlankC(s), Receive(YesB(k, t), true));
  }
}
