/**
 Exactly when a confirmed leader's read index covers every earlier commit: the code takes its commit index whatever
 the term of the entry there (internal/raft/readindex.go:29-33).
 */
module ReadExact {
  import opened JukeboxTypes
  import opened JukeboxSpec
  import opened RaftLog
  import opened Storage
  import opened Node
  import opened Cluster
  import opened Consensus
  import opened Relation
  import opened Theorems
  import opened ReadIndex
  import opened Scenario
  import opened Climbing

  // ---- A, leading term a, commits x with B's acknowledgement; B knows of the first q commits ----

  function TwoOf(a: nat, x: Payload): seq<Entry> {
    [Sentinel(0, 0), Entry(a, 1, NOOP), Entry(a, 2, x)]
  }

  function CommittedTwo(k: Trio, a: nat, x: Payload): NodeState {
    LeadsA(k, a).(entries := TwoOf(a, x), commitIndex := 2,
                  matchIndex := map[k.b := 2, k.c := 0], nextIndex := map[k.b := 3, k.c := 1])
  }

  function Holding(k: Trio, a: nat, x: Payload, q: nat): NodeState {
    VotedB(k, a).(leaderId := k.a, entries := TwoOf(a, x), commitIndex := q)
  }

  function LeadsTwo(k: Trio, a: nat, x: Payload): NodeState {
    LeadsA(k, a).(entries := TwoOf(a, x))
  }

  function Both(k: Trio, a: nat, x: Payload): Msg { AppendReq(k.a, k.b, 0, a, 0, 0, TwoOf(a, x)[1..], 0) }
  function BothAck(k: Trio, a: nat): Msg { AppendReply(k.b, k.a, 0, a, 0, 2, a, true, 0, 0) }

  lemma ProposesTwo(k: Trio, a: nat, x: Payload)
    requires Distinct(k) && a > 0
    ensures CanCall(LeadsA(k, a), Submit(x, false)) && Handle(LeadsA(k, a), Submit(x, false)).node == LeadsTwo(k, a, x)
  {
    Proposes(LeadsA(k, a), k.b, k.c, x);
    assert LeadsA(k, a).entries + [Entry(a, 2, x)] == TwoOf(a, x);
  }

  lemma ShipsBoth(k: Trio, a: nat, x: Payload)
    requires Distinct(k) && a > 0
    ensures CanCall(LeadsTwo(k, a, x), Replicate(k.b, 0))
    ensures Handle(LeadsTwo(k, a, x), Replicate(k.b, 0)) == Out(LeadsTwo(k, a, x), [], {Both(k, a, x)}, [], {})
  {
    assert k.b == LeadsTwo(k, a, x).cfg.peers[0];
  }

  lemma TakesBoth(k: Trio, a: nat, x: Payload)
    requires Distinct(k) && a > 0
    ensures CanCall(VotedB(k, a), Receive(Both(k, a, x), true)) && Allowed(VotedB(k, a), Receive(Both(k, a, x), true))
    ensures Handle(VotedB(k, a), Receive(Both(k, a, x), true)).node == Holding(k, a, x, 0)
    ensures BothAck(k, a) in Handle(VotedB(k, a), Receive(Both(k, a, x), true)).sends
  {
    assert TwoOf(a, x)[1..] == [Entry(a, 1, NOOP), Entry(a, 2, x)];
    MergeTwo(Entry(a, 1, NOOP), Entry(a, 2, x));
  }

  lemma CountsBoth(k: Trio, a: nat, x: Payload)
    requires Distinct(k) && a > 0
    ensures CanCall(LeadsTwo(k, a, x), Receive(BothAck(k, a), true))
    ensures Handle(LeadsTwo(k, a, x), Receive(BothAck(k, a), true)).node == CommittedTwo(k, a, x)
  {
    TwoEntries(k.b, k.c, 0, 0, 2);
    TwoEntries(k.b, k.c, 1, 1, 3);
    var n := LeadsTwo(k, a, x).(matchIndex := map[k.b := 2, k.c := 0], nextIndex := map[k.b := 3, k.c := 1]);
    CountTwo(k.b, k.c, n.matchIndex, 2);
    assert Countable(n, 2);
  }

  /** Both entries at once: B has not heard of any commit. */
  lemma CommitUnheard(k: Trio, a: nat, x: Payload) returns (run: seq<ClusterState>)
    requires Distinct(k) && a > 0
    ensures IsGuardedRun(run) && run != [] && At(k, Last(run), CommittedTwo(k, a, x), Holding(k, a, x, 0), BlankC(Bare(k)))
  {
    var d := BlankC(Bare(k));
    run := FirstLeader(k, a);
    ProposesTwo(k, a, x);
    run := MoveA(k, run, LeadsA(k, a), VotedB(k, a), d, Submit(x, false));
    ShipsBoth(k, a, x);
    run := MoveA(k, run, LeadsTwo(k, a, x), VotedB(k, a), d, Replicate(k.b, 0));
    TakesBoth(k, a, x);
    run := MoveB(k, run, LeadsTwo(k, a, x), VotedB(k, a), d, Receive(Both(k, a, x), true));
    CountsBoth(k, a, x);
    run := MoveA(k, run, LeadsTwo(k, a, x), Holding(k, a, x, 0), d, Receive(BothAck(k, a), true));
  }

  // ---- One entry at a time: B hears of the first commit with the second entry ----

  function OneB(k: Trio, a: nat): NodeState {
    VotedB(k, a).(leaderId := k.a, entries := [Sentinel(0, 0), Entry(a, 1, NOOP)])
  }

  function OneA(k: Trio, a: nat): NodeState {
    LeadsA(k, a).(commitIndex := 1, matchIndex := map[k.b := 1, k.c := 0], nextIndex := map[k.b := 2, k.c := 1])
  }

  function MoreA(k: Trio, a: nat, x: Payload): NodeState { OneA(k, a).(entries := TwoOf(a, x)) }

  function Noop(k: Trio, a: nat): Msg { AppendReq(k.a, k.b, 0, a, 0, 0, [Entry(a, 1, NOOP)], 0) }
  function NoopAck(k: Trio, a: nat): Msg { AppendReply(k.b, k.a, 0, a, 0, 1, a, true, 0, 0) }
  function Second(k: Trio, a: nat, x: Payload): Msg { AppendReq(k.a, k.b, 0, a, 1, a, [Entry(a, 2, x)], 1) }
  function SecondAck(k: Trio, a: nat): Msg { AppendReply(k.b, k.a, 0, a, 1, 1, a, true, 0, 0) }

  lemma ShipsNoop(k: Trio, a: nat)
    requires Distinct(k) && a > 0
    ensures CanCall(LeadsA(k, a), Replicate(k.b, 0)) && Handle(LeadsA(k, a), Replicate(k.b, 0)) == Out(LeadsA(k, a), [], {Noop(k, a)}, [], {})
  {
    assert LeadsA(k, a).entries[1..] == [Entry(a, 1, NOOP)];
    assert k.b == LeadsA(k, a).cfg.peers[0];
  }

  lemma TakesNoop(k: Trio, a: nat)
    requires Distinct(k) && a > 0
    ensures CanCall(VotedB(k, a), Receive(Noop(k, a), true)) && Allowed(VotedB(k, a), Receive(Noop(k, a), true))
    ensures Handle(VotedB(k, a), Receive(Noop(k, a), true)).node == OneB(k, a)
    ensures NoopAck(k, a) in Handle(VotedB(k, a), Receive(Noop(k, a), true)).sends
  {
    var e := Entry(a, 1, NOOP);
    assert [e][1..] == [];
    assert Merge([Sentinel(0, 0)], 0, [e]) == Merged([Sentinel(0, 0), e], [e], []);
  }

  lemma CountsNoop(k: Trio, a: nat)
    requires Distinct(k) && a > 0
    ensures CanCall(LeadsA(k, a), Receive(NoopAck(k, a), true)) && Handle(LeadsA(k, a), Receive(NoopAck(k, a), true)).node == OneA(k, a)
  {
    TwoEntries(k.b, k.c, 0, 0, 1);
    TwoEntries(k.b, k.c, 1, 1, 2);
    var n := LeadsA(k, a).(matchIndex := map[k.b := 1, k.c := 0], nextIndex := map[k.b := 2, k.c := 1]);
    CountTwo(k.b, k.c, n.matchIndex, 1);
    assert Countable(n, 1);
  }

  lemma ProposesMore(k: Trio, a: nat, x: Payload)
    requires Distinct(k) && a > 0
    ensures CanCall(OneA(k, a), Submit(x, false)) && Handle(OneA(k, a), Submit(x, false)).node == MoreA(k, a, x)
  {
    var n := MoreA(k, a, x);
    assert OneA(k, a).entries + [Entry(a, 2, x)] == n.entries;
    CountTwo(k.b, k.c, n.matchIndex, 2);
    assert CommitSearch(n, 1) == 1;
  }

  lemma ShipsSecond(k: Trio, a: nat, x: Payload)
    requires Distinct(k) && a > 0
    ensures CanCall(MoreA(k, a, x), Replicate(k.b, 0))
    ensures Handle(MoreA(k, a, x), Replicate(k.b, 0)) == Out(MoreA(k, a, x), [], {Second(k, a, x)}, [], {})
  {
    assert MoreA(k, a, x).entries[2..] == [Entry(a, 2, x)];
    assert k.b == MoreA(k, a, x).cfg.peers[0];
  }

  lemma TakesSecond(k: Trio, a: nat, x: Payload)
    requires Distinct(k) && a > 0
    ensures CanCall(OneB(k, a), Receive(Second(k, a, x), true)) && Allowed(OneB(k, a), Receive(Second(k, a, x), true))
    ensures Handle(OneB(k, a), Receive(Second(k, a, x), true)).node == Holding(k, a, x, 1)
    ensures SecondAck(k, a) in Handle(OneB(k, a), Receive(Second(k, a, x), true)).sends
  {
    var n, e := OneB(k, a), Entry(a, 2, x);
    assert [e][1..] == [] && n.entries + [e] == TwoOf(a, x);
    assert Merge(n.entries, 0, [e]) == Merged(TwoOf(a, x), [e], []);
  }

  lemma CountsSecond(k: Trio, a: nat, x: Payload)
    requires Distinct(k) && a > 0
    ensures CanCall(MoreA(k, a, x), Receive(SecondAck(k, a), true))
    ensures Handle(MoreA(k, a, x), Receive(SecondAck(k, a), true)).node == CommittedTwo(k, a, x)
  {
    TwoEntries(k.b, k.c, 1, 0, 2);
    TwoEntries(k.b, k.c, 2, 1, 3);
    var n := MoreA(k, a, x).(matchIndex := map[k.b := 2, k.c := 0], nextIndex := map[k.b := 3, k.c := 1]);
    CountTwo(k.b, k.c, n.matchIndex, 2);
    assert Countable(n, 2);
  }

  lemma FirstHeard(k: Trio, a: nat) returns (run: seq<ClusterState>)
    requires Distinct(k) && a > 0
    ensures IsGuardedRun(run) && run != [] && At(k, Last(run), OneA(k, a), OneB(k, a), BlankC(Bare(k)))
  {
    var d := BlankC(Bare(k));
    run := FirstLeader(k, a);
    ShipsNoop(k, a);
    run := MoveA(k, run, LeadsA(k, a), VotedB(k, a), d, Replicate(k.b, 0));
    TakesNoop(k, a);
    run := MoveB(k, run, LeadsA(k, a), VotedB(k, a), d, Receive(Noop(k, a), true));
    CountsNoop(k, a);
    run := MoveA(k, run, LeadsA(k, a), OneB(k, a), d, Receive(NoopAck(k, a), true));
  }

  lemma CommitHeard(k: Trio, a: nat, x: Payload) returns (run: seq<ClusterState>)
    requires Distinct(k) && a > 0
    ensures IsGuardedRun(run) && run != [] && At(k, Last(run), CommittedTwo(k, a, x), Holding(k, a, x, 1), BlankC(Bare(k)))
  {
    var d := BlankC(Bare(k));
    run := FirstHeard(k, a);
    ProposesMore(k, a, x);
    run := MoveA(k, run, OneA(k, a), OneB(k, a), d, Submit(x, false));
    ShipsSecond(k, a, x);
    run := MoveA(k, run, MoreA(k, a, x), OneB(k, a), d, Replicate(k.b, 0));
    TakesSecond(k, a, x);
    run := MoveB(k, run, MoreA(k, a, x), OneB(k, a), d, Receive(Second(k, a, x), true));
    CountsSecond(k, a, x);
    run := MoveA(k, run, MoreA(k, a, x), Holding(k, a, x, 1), d, Receive(SecondAck(k, a), true));
  }

  // ---- B climbs to term t and wins it with C's vote ----

  function RunningB(k: Trio, a: nat, x: Payload, q: nat, t: nat): NodeState
    requires a < t
  {
    Climbed(Holding(k, a, x, q), t - a)
  }

  function VotedC(k: Trio, t: nat): NodeState { BlankC(Bare(k)).(currentTerm := t, votedFor := k.b) }

  function LeadsB(k: Trio, a: nat, x: Payload, q: nat, t: nat): NodeState
    requires a < t
  {
    Holding(k, a, x, q).(currentTerm := t, votedFor := k.b, bids := RunningB(k, a, x, q, t).bids,
      role := Leader, leaderId := k.b, ballot := Ballot(t, {k.b, k.c}, true),
      nextIndex := map[k.a := 3, k.c := 3], matchIndex := map[k.a := 0, k.c := 0], entries := TwoOf(a, x) + [Entry(t, 3, NOOP)])
  }

  function AskC(k: Trio, a: nat, t: nat): Msg { VoteReq(k.b, k.c, t, 2, a, false) }
  function YesC(k: Trio, t: nat): Msg { VoteReply(k.c, k.b, t, false, t, true) }

  lemma RunningIs(k: Trio, a: nat, x: Payload, q: nat, t: nat)
    requires Distinct(k) && 0 < a < t && q <= 1
    ensures CanClimb(Holding(k, a, x, q))
    ensures RunningB(k, a, x, q, t) == Holding(k, a, x, q).(currentTerm := t, role := Candidate, votedFor := k.b, leaderId := "",
      ballot := Ballot(t, {k.b}, false), bids := RunningB(k, a, x, q, t).bids)
  {
    ClimbedIs(Holding(k, a, x, q), t - a);
  }

  lemma VotesC(k: Trio, a: nat, t: nat)
    requires Distinct(k) && 0 < a < t
    ensures CanCall(BlankC(Bare(k)), Receive(AskC(k, a, t), true)) && Handle(BlankC(Bare(k)), Receive(AskC(k, a, t), true)).node == VotedC(k, t)
    ensures YesC(k, t) in Handle(BlankC(Bare(k)), Receive(AskC(k, a, t), true)).sends
  {
  }

  lemma WinsB(k: Trio, a: nat, x: Payload, q: nat, t: nat)
    requires Distinct(k) && 0 < a < t && q <= 1
    ensures var n := RunningB(k, a, x, q, t);
      && CanCall(n, Receive(YesC(k, t), true)) && Handle(n, Receive(YesC(k, t), true)).node == LeadsB(k, a, x, q, t)
      && Handle(n, Receive(YesC(k, t), true)).sends == {}
  {
    var n := RunningB(k, a, x, q, t);
    RunningIs(k, a, x, q, t);
    assert {k.b} + {k.c} == {k.b, k.c};
    Elected(n.(ballot := Ballot(t, {k.b, k.c}, true)), k.a, k.c);
  }

  lemma Committing(k: Trio, a: nat, x: Payload, q: nat) returns (run: seq<ClusterState>)
    requires Distinct(k) && a > 0 && q <= 1
    ensures IsGuardedRun(run) && run != [] && At(k, Last(run), CommittedTwo(k, a, x), Holding(k, a, x, q), BlankC(Bare(k)))
  {
    if q == 0 { run := CommitUnheard(k, a, x); } else { run := CommitHeard(k, a, x); }
  }

  lemma Climbs(k: Trio, a: nat, x: Payload, q: nat, t: nat) returns (run: seq<ClusterState>)
    requires Distinct(k) && 0 < a < t && q <= 1
    ensures IsGuardedRun(run) && run != [] && At(k, Last(run), CommittedTwo(k, a, x), RunningB(k, a, x, q, t), BlankC(Bare(k)))
    ensures AskC(k, a, t) in Last(run).msgs
  {
    run := Committing(k, a, x, q);
    RunningIs(k, a, x, q, t);
    run := ClimbB(k, run, CommittedTwo(k, a, x), Holding(k, a, x, q), BlankC(Bare(k)), t - a);
    assert k.c == Holding(k, a, x, q).cfg.peers[1];
    assert Asks(Holding(k, a, x, q), t, k.c) == AskC(k, a, t);
  }

  lemma Deposes(k: Trio, a: nat, x: Payload, q: nat, t: nat) returns (run: seq<ClusterState>)
    requires Distinct(k) && 0 < a < t && q <= 1
    ensures IsGuardedRun(run) && run != [] && At(k, Last(run), CommittedTwo(k, a, x), RunningB(k, a, x, q, t), VotedC(k, t))
    ensures YesC(k, t) in Last(run).msgs
  {
    var d := BlankC(Bare(k));
    run := Climbs(k, a, x, q, t);
    VotesC(k, a, t);
    run := MoveC(k, run, CommittedTwo(k, a, x), RunningB(k, a, x, q, t), d, Receive(AskC(k, a, t), true));
  }

  // ---- B records its commit index, q, and A confirms B's leadership ----

  function Beat(k: Trio, a: nat, q: nat, t: nat): Msg { AppendReq(k.b, k.a, 1, t, 2, a, [], q) }
  function BeatAck(k: Trio, t: nat): Msg { AppendReply(k.a, k.b, 1, t, 2, 0, t, true, 0, 0) }

  lemma ConfirmsB(k: Trio, a: nat, x: Payload, q: nat, t: nat)
    requires Distinct(k) && 0 < a < t && q <= 1
    ensures CanCall(LeadsB(k, a, x, q, t), Confirm(k.a, 1, q))
    ensures Handle(LeadsB(k, a, x, q, t), Confirm(k.a, 1, q)) == Out(LeadsB(k, a, x, q, t), [], {Beat(k, a, q, t)}, [], {})
  {
    assert k.a == LeadsB(k, a, x, q, t).cfg.peers[0];
  }

  lemma Acknowledges(k: Trio, a: nat, x: Payload, q: nat, t: nat)
    requires Distinct(k) && 0 < a < t && q <= 1
    ensures CanCall(CommittedTwo(k, a, x), Receive(Beat(k, a, q, t), true)) && Allowed(CommittedTwo(k, a, x), Receive(Beat(k, a, q, t), true))
    ensures BeatAck(k, t) in Handle(CommittedTwo(k, a, x), Receive(Beat(k, a, q, t), true)).sends
  {
  }

  /** A candidate has sent no replication request in the term it still stands for. */
  lemma NotYetAsked(run: seq<ClusterState>, steps: seq<Step>, i: nat, v: Id, m: Msg)
    requires IsRun(run, steps) && i < |run| && v in run[i].nodes && m.AppendReply? && m.dst == v
    requires var n := run[i].nodes[v]; n.ballot.Ballot? && n.ballot.term == m.reqTerm && !n.ballot.won
    ensures !Requested(run[i].msgs, m)
  {
    var s := StateOf(run, steps, i);
    NodeOf(run[i], s, v);
    forall q | q in run[i].msgs ensures !IsRequestFor(q, m) { assert MsgRel(s, q); }
  }

  lemma Elevates(k: Trio, a: nat, x: Payload, q: nat, t: nat) returns (run: seq<ClusterState>)
    requires Distinct(k) && 0 < a < t && q <= 1
    ensures IsGuardedRun(run) && run != [] && At(k, Last(run), CommittedTwo(k, a, x), LeadsB(k, a, x, q, t), VotedC(k, t))
    ensures !Requested(Last(run).msgs, BeatAck(k, t))
  {
    var r := Deposes(k, a, x, q, t);
    var steps :| IsRun(r, steps);
    RunningIs(k, a, x, q, t);
    NotYetAsked(r, steps, |r| - 1, k.b, BeatAck(k, t));
    WinsB(k, a, x, q, t);
    run := MoveB(k, r, CommittedTwo(k, a, x), RunningB(k, a, x, q, t), VotedC(k, t), Receive(YesC(k, t), true));
    assert Last(run).msgs == Last(r).msgs;
  }

  lemma Confirmation(k: Trio, a: nat, x: Payload, q: nat, t: nat, r: seq<ClusterState>) returns (run: seq<ClusterState>)
    requires Distinct(k) && 0 < a < t && q <= 1 && IsGuardedRun(r) && r != []
    requires At(k, Last(r), CommittedTwo(k, a, x), LeadsB(k, a, x, q, t), VotedC(k, t))
    ensures IsGuardedRun(run) && |run| == |r| + 2 && run[..|r|] == r && BeatAck(k, t) in Last(run).msgs
  {
    ConfirmsB(k, a, x, q, t);
    var r1 := MoveB(k, r, CommittedTwo(k, a, x), LeadsB(k, a, x, q, t), VotedC(k, t), Confirm(k.a, 1, q));
    run := Acknowledgement(k, a, x, q, t, LeadsB(k, a, x, q, t), r1);
    assert run[..|r|] == r1[..|r|];
  }

  lemma Acknowledgement(k: Trio, a: nat, x: Payload, q: nat, t: nat, nb: NodeState, r: seq<ClusterState>) returns (run: seq<ClusterState>)
    requires Distinct(k) && 0 < a < t && q <= 1 && IsGuardedRun(r) && r != [] && Beat(k, a, q, t) in Last(r).msgs
    requires At(k, Last(r), CommittedTwo(k, a, x), nb, VotedC(k, t))
    ensures IsGuardedRun(run) && |run| == |r| + 1 && run[..|r|] == r && BeatAck(k, t) in Last(run).msgs
  {
    Acknowledges(k, a, x, q, t);
    run := MoveA(k, r, CommittedTwo(k, a, x), nb, VotedC(k, t), Receive(Beat(k, a, q, t), true));
  }

  // ---- Exactly when the read index covers ----

  /** v, confirmed as leader of term t, records an index whose entry is of term c. */
  ghost predicate ReadAt(run: seq<ClusterState>, steps: seq<Step>, i: nat, j: nat, v: Id, acks: set<Id>, c: nat, t: nat) {
    && IsRun(run, steps) && i <= j < |run| && LeadershipConfirmed(run[i], run[j], v, acks)
    && run[i].nodes[v].currentTerm == t && TermOf(run[i].nodes[v], run[i].nodes[v].commitIndex) == Some(c)
  }

  /** No node had committed further by then. */
  ghost predicate CoversAll(run: seq<ClusterState>, i: nat, v: Id)
    requires i < |run| && v in run[i].nodes
  {
    forall h: nat, u {:trigger run[h].nodes[u]} :: h <= i && u in run[h].nodes ==> run[h].nodes[u].commitIndex <= run[i].nodes[v].commitIndex
  }

  /** Whenever the recorded entry's term is below a leader's term above 1, some run misses a commit. */
  lemma StaleRead(k: Trio, x: Payload, c: nat, t: nat) returns (run: seq<ClusterState>, steps: seq<Step>, i: nat, j: nat)
    requires Distinct(k) && c < t && t >= 2
    ensures ReadAt(run, steps, i, j, k.b, {k.a, k.b}, c, t)
    ensures k.a in run[i].nodes && run[i].nodes[k.b].commitIndex < run[i].nodes[k.a].commitIndex == 2
  {
    var a, q := if c == 0 then 1 else c, if c == 0 then 0 else 1;
    var r := Elevates(k, a, x, q, t);
    run := Confirmation(k, a, x, q, t, r);
    steps :| IsRun(run, steps);
    i, j := |r| - 1, |run| - 1;
    assert run[i] == run[..|r|][i];
    assert FreshAck(run[i], run[j], k.b, k.a, t, BeatAck(k, t));
    assert |{k.a, k.b}| == 2;
  }

  /** In term 1 there is no earlier leader whose commits could be missed. */
  lemma FirstTermCovers(run: seq<ClusterState>, steps: seq<Step>, h: nat, i: nat, j: nat, v: Id, acks: set<Id>, u: Id)
    requires IsRun(run, steps) && h <= i <= j < |run| && u in run[h].nodes
    requires LeadershipConfirmed(run[i], run[j], v, acks) && run[i].nodes[v].currentTerm <= 1
    ensures run[h].nodes[u].commitIndex <= run[i].nodes[v].commitIndex
  {
    var s0, s := StatesOf(run, steps, h, i);
    ConfirmedIn(run, steps, i, j, v, acks, s);
    FirstTermInStates(run[h], s0, run[i], s, v, acks, u);
  }

  lemma FirstTermInStates(c0: ClusterState, s0: State, c: ClusterState, s: State, v: Id, acks: set<Id>, u: Id)
    requires Matched(c0, s0) && Matched(c, s) && Later(s0, s) && u in c0.nodes && v in c.nodes
    requires c.nodes[v].role == Leader && c.nodes[v].currentTerm <= 1 && Confirmed(s, c.nodes[v].currentTerm, acks)
    ensures c0.nodes[u].commitIndex <= c.nodes[v].commitIndex
  {
    LeaderReigns(c, s, v);
    if c0.nodes[u].commitIndex > 0 {
      var t := CommitUnder(c0, s0, s, u);
      NoLaterReign(s, c.nodes[v].currentTerm, acks, t);
      assert GoodReign(s, t);
    }
  }

  lemma ReadCovers(run: seq<ClusterState>, steps: seq<Step>, i: nat, j: nat, v: Id, acks: set<Id>, c: nat, t: nat)
    requires ReadAt(run, steps, i, j, v, acks, c, t) && (c == t || t <= 1)
    ensures CoversAll(run, i, v)
  {
    forall h: nat, u | h <= i && u in run[h].nodes ensures run[h].nodes[u].commitIndex <= run[i].nodes[v].commitIndex {
      if c == t { ReadIndexCovers(run, steps, h, i, j, v, acks, u); }
      else { FirstTermCovers(run, steps, h, i, j, v, acks, u); }
    }
  }

  /**
   The read index of a confirmed leader of term t, recorded at an entry of term c, covers every earlier commit in every run,
   if and only if the entry is of the leader's own term or the term is the first.
   */
  lemma ReadCoversIff(c: nat, t: nat)
    requires c <= t
    ensures (forall run, steps, i: nat, j: nat, v, acks {:trigger ReadAt(run, steps, i, j, v, acks, c, t)} ::
               ReadAt(run, steps, i, j, v, acks, c, t) ==> CoversAll(run, i, v))
       <==> c == t || t <= 1
  {
    if c == t || t <= 1 {
      forall run, steps, i: nat, j: nat, v, acks | ReadAt(run, steps, i, j, v, acks, c, t) ensures CoversAll(run, i, v) {
        ReadCovers(run, steps, i, j, v, acks, c, t);
      }
    } else {
      var k := Trio("a", "b", "c");
      var run, steps, i, j := StaleRead(k, NOOP, c, t);
      assert ReadAt(run, steps, i, j, k.b, {k.a, k.b}, c, t);
      assert !CoversAll(run, i, k.b);
    }
  }
}
