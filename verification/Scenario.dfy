/**
 Concrete runs that show each hypothesis of the theorems is needed. The cluster
 has three nodes; every step is one the code can take.
 */
module Scenario {
  import opened JukeboxTypes
  import opened JukeboxSpec
  import opened RaftLog
  import opened Storage
  import opened Node
  import opened Cluster

  /** The states of a run whose steps need not be guarded. */
  ghost predicate IsAnyRun(run: seq<ClusterState>) {
    exists steps :: IsFreeRun(run, steps)
  }

  /** The states of a guarded run. */
  ghost predicate IsGuardedRun(run: seq<ClusterState>) {
    exists steps :: IsRun(run, steps)
  }

  ghost function Last(run: seq<ClusterState>): ClusterState
    requires run != []
  {
    run[|run| - 1]
  }

  /** What a step in which v completes a section leaves. */
  ghost predicate Went(c: ClusterState, c': ClusterState, v: Id, o: Out) {
    && c'.nodes == c.nodes[v := o.node] && v in c.disks && c'.disks == c.disks[v := Replay(c.disks[v], o.writes)]
    && c'.msgs == c.msgs + o.sends && c'.applied == c.applied + (set e | e in o.applied)
  }

  /** The step's own guard, seen from the acting node. */
  predicate Allowed(n: NodeState, call: Call)
    requires n.entries != []
  {
    call.Receive? && call.m.AppendReq? ==> CommitCapped(n, call.m)
  }

  ghost predicate CanMove(c: ClusterState, v: Id, n: NodeState, call: Call) {
    && v in c.nodes && v in c.disks && c.nodes[v] == n && CanCall(n, call) && (call.Receive? ==> call.m in c.msgs)
  }

  /** One guarded step of a node whose state is known. */
  lemma Move(run: seq<ClusterState>, v: Id, n: NodeState, call: Call) returns (c': ClusterState)
    requires IsGuardedRun(run) && run != [] && CanMove(Last(run), v, n, call) && Allowed(n, call)
    ensures IsGuardedRun(run + [c']) && Went(Last(run), c', v, Handle(n, call))
  {
    var steps :| IsRun(run, steps);
    c' := Take(Last(run), Act(v, call));
    var run', steps' := run + [c'], steps + [Act(v, call)];
    forall i: nat | i < |steps'| ensures RunStep(run', steps', i) {
      assert i < |steps| ==> RunStep(run, steps, i);
    }
    assert IsRun(run', steps');
  }

  /** One more guarded step of any kind. */
  lemma MoveCrash(run: seq<ClusterState>, step: Step) returns (c': ClusterState)
    requires IsGuardedRun(run) && run != [] && CanStep(Last(run), step) && Guarded(Last(run), step)
    ensures IsGuardedRun(run + [c']) && c' == Take(Last(run), step)
  {
    var steps :| IsRun(run, steps);
    c' := Take(Last(run), step);
    var run', steps' := run + [c'], steps + [step];
    forall i: nat | i < |steps'| ensures RunStep(run', steps', i) {
      assert i < |steps| ==> RunStep(run, steps, i);
    }
    assert IsRun(run', steps');
  }

  /** One more step, guarded or not. */
  lemma MoveFree(run: seq<ClusterState>, step: Step) returns (c': ClusterState)
    requires IsAnyRun(run) && run != [] && CanStep(Last(run), step)
    ensures IsAnyRun(run + [c']) && c' == Take(Last(run), step)
  {
    var steps :| IsFreeRun(run, steps);
    c' := Take(Last(run), step);
    var run', steps' := run + [c'], steps + [step];
    forall i: nat | i < |steps'| ensures FreeStep(run', steps', i) {
      assert i < |steps| ==> FreeStep(run, steps, i);
    }
    assert IsFreeRun(run', steps');
  }

  lemma Unguard(run: seq<ClusterState>)
    requires IsGuardedRun(run)
    ensures IsAnyRun(run)
  {
    var steps :| IsRun(run, steps);
    forall i: nat | i < |steps| ensures FreeStep(run, steps, i) { assert RunStep(run, steps, i); }
    assert IsFreeRun(run, steps);
  }

  // ---- Three nodes ----

  datatype Trio = Trio(a: Id, b: Id, c: Id)

  ghost predicate Distinct(k: Trio) {
    k.a != k.b && k.a != k.c && k.b != k.c && k.a != "" && k.b != "" && k.c != ""
  }

  /** A node with nothing in it. */
  function Blank(id: Id, peers: seq<Id>, threshold: int): NodeState {
    NodeState(Config(id, peers, 2, threshold), 0, "", [Sentinel(0, 0)], 0, 0, None,
              Follower, "", 0, 0, map[], map[], map[], INITIAL, NoBallot, {})
  }

  lemma BlankIsLoaded(id: Id, peers: seq<Id>, threshold: int)
    ensures Load(Config(id, peers, 2, threshold), EMPTY_DISK) == Blank(id, peers, threshold)
  {
    ListingIs(map[], 0);
  }

  /** The snapshot thresholds of the first two nodes; the third never compacts. */
  datatype Setup = Setup(k: Trio, ta: int, tb: int)

  function BlankA(s: Setup): NodeState { Blank(s.k.a, [s.k.b, s.k.c], s.ta) }
  function BlankB(s: Setup): NodeState { Blank(s.k.b, [s.k.a, s.k.c], s.tb) }
  function BlankC(s: Setup): NodeState { Blank(s.k.c, [s.k.a, s.k.b], -1) }

  /** Where the cluster stands: its nodes, with a disk for each. */
  ghost predicate At(k: Trio, c: ClusterState, a: NodeState, b: NodeState, d: NodeState) {
    c.nodes == map[k.a := a, k.b := b, k.c := d] && c.disks.Keys == {k.a, k.b, k.c}
  }

  lemma Placed(k: Trio, c: ClusterState, c': ClusterState, a: NodeState, b: NodeState, d: NodeState, v: Id, n: NodeState)
    requires Distinct(k) && At(k, c, a, b, d) && c'.nodes == c.nodes[v := n] && c'.disks.Keys == c.disks.Keys
    ensures v == k.a ==> At(k, c', n, b, d)
    ensures v == k.b ==> At(k, c', a, n, d)
    ensures v == k.c ==> At(k, c', a, b, n)
  {
  }

  lemma MoveA(k: Trio, run: seq<ClusterState>, a: NodeState, b: NodeState, d: NodeState, call: Call) returns (run': seq<ClusterState>)
    requires Distinct(k) && IsGuardedRun(run) && run != [] && At(k, Last(run), a, b, d)
    requires CanCall(a, call) && Allowed(a, call) && (call.Receive? ==> call.m in Last(run).msgs)
    ensures IsGuardedRun(run') && |run'| == |run| + 1 && run'[..|run|] == run && At(k, Last(run'), Handle(a, call).node, b, d)
    ensures Last(run').msgs == Last(run).msgs + Handle(a, call).sends
    ensures Last(run').applied == Last(run).applied + (set e | e in Handle(a, call).applied)
    ensures Last(run').disks[k.b] == Last(run).disks[k.b]
  {
    var c := Move(run, k.a, a, call);
    run' := run + [c];
    Placed(k, Last(run), c, a, b, d, k.a, Handle(a, call).node);
  }

  lemma MoveB(k: Trio, run: seq<ClusterState>, a: NodeState, b: NodeState, d: NodeState, call: Call) returns (run': seq<ClusterState>)
    requires Distinct(k) && IsGuardedRun(run) && run != [] && At(k, Last(run), a, b, d)
    requires CanCall(b, call) && Allowed(b, call) && (call.Receive? ==> call.m in Last(run).msgs)
    ensures IsGuardedRun(run') && |run'| == |run| + 1 && run'[..|run|] == run && At(k, Last(run'), a, Handle(b, call).node, d)
    ensures Last(run').msgs == Last(run).msgs + Handle(b, call).sends
    ensures Last(run').applied == Last(run).applied + (set e | e in Handle(b, call).applied)
    ensures Last(run').disks[k.b] == Replay(Last(run).disks[k.b], Handle(b, call).writes)
  {
    var c := Move(run, k.b, b, call);
    run' := run + [c];
    Placed(k, Last(run), c, a, b, d, k.b, Handle(b, call).node);
  }

  lemma MoveC(k: Trio, run: seq<ClusterState>, a: NodeState, b: NodeState, d: NodeState, call: Call) returns (run': seq<ClusterState>)
    requires Distinct(k) && IsGuardedRun(run) && run != [] && At(k, Last(run), a, b, d)
    requires CanCall(d, call) && Allowed(d, call) && (call.Receive? ==> call.m in Last(run).msgs)
    ensures IsGuardedRun(run') && |run'| == |run| + 1 && run'[..|run|] == run && At(k, Last(run'), a, b, Handle(d, call).node)
    ensures Last(run').msgs == Last(run).msgs + Handle(d, call).sends
    ensures Last(run').applied == Last(run).applied + (set e | e in Handle(d, call).applied)
    ensures Last(run').disks[k.b] == Last(run).disks[k.b]
  {
    var c := Move(run, k.c, d, call);
    run' := run + [c];
    Placed(k, Last(run), c, a, b, d, k.c, Handle(d, call).node);
  }

  function Opening(s: Setup): ClusterState {
    ClusterState(map[s.k.a := BlankA(s), s.k.b := BlankB(s), s.k.c := BlankC(s)],
                 map[s.k.a := EMPTY_DISK, s.k.b := EMPTY_DISK, s.k.c := EMPTY_DISK], {}, {}, {})
  }

  lemma Configured(ids: set<Id>, v: Id, p: Id, q: Id, threshold: int)
    requires ids == {v, p, q} && v != p && v != q && p != q
    ensures GoodConfig(ids, v, Blank(v, [p, q], threshold).cfg)
    ensures Blank(v, [p, q], threshold) == Load(Blank(v, [p, q], threshold).cfg, EMPTY_DISK)
  {
    BlankIsLoaded(v, [p, q], threshold);
    assert |ids| == 3;
    var peers := [p, q];
    forall x ensures x in peers <==> x in ids && x != v { assert x in peers ==> x == peers[0] || x == peers[1]; }
  }

  lemma OpeningStarts(s: Setup)
    requires Distinct(s.k)
    ensures IsGuardedRun([Opening(s)]) && At(s.k, Opening(s), BlankA(s), BlankB(s), BlankC(s))
  {
    var c := Opening(s);
    forall v | v in c.nodes
      ensures GoodConfig(c.nodes.Keys, v, c.nodes[v].cfg) && c.disks[v] == EMPTY_DISK && c.nodes[v] == Load(c.nodes[v].cfg, EMPTY_DISK)
    {
      NodeOpens(s, v);
    }
    assert IsRun([c], []);
  }

  lemma NodeOpens(s: Setup, v: Id)
    requires Distinct(s.k) && v in Opening(s).nodes
    ensures v in Opening(s).disks && Opening(s).disks[v] == EMPTY_DISK
    ensures GoodConfig(Opening(s).nodes.Keys, v, Opening(s).nodes[v].cfg)
    ensures Opening(s).nodes[v] == Load(Opening(s).nodes[v].cfg, EMPTY_DISK)
  {
    var c, k := Opening(s), s.k;
    var ids := {k.a, k.b, k.c};
    assert c.nodes.Keys == ids;
    if v == k.a { Configured(ids, k.a, k.b, k.c, s.ta); }
    else if v == k.b { Configured(ids, k.b, k.a, k.c, s.tb); }
    else { Configured(ids, k.c, k.a, k.b, -1); }
  }

  // ---- The first election: A leads term 1 with B's vote ----

  const BID0: Bid := Bid(0, 0, 0)

  function Standing(s: Setup): NodeState {
    BlankA(s).(role := Candidate, bids := {BID0})
  }

  function Running(s: Setup): NodeState {
    Standing(s).(currentTerm := 1, votedFor := s.k.a, ballot := Ballot(1, {s.k.a}, false))
  }

  function Leading(s: Setup): NodeState {
    Running(s).(role := Leader, leaderId := s.k.a, ballot := Ballot(1, {s.k.a, s.k.b}, true),
                nextIndex := map[s.k.b := 1, s.k.c := 1], matchIndex := map[s.k.b := 0, s.k.c := 0],
                entries := [Sentinel(0, 0), Entry(1, 1, NOOP)])
  }

  function Voted(s: Setup): NodeState {
    BlankB(s).(currentTerm := 1, votedFor := s.k.a)
  }

  function Ask(s: Setup): Msg { VoteReq(s.k.a, s.k.b, 1, 0, 0, false) }
  function Yes(s: Setup): Msg { VoteReply(s.k.b, s.k.a, 1, false, 1, true) }

  lemma Campaigns(s: Setup)
    ensures CanCall(BlankA(s), Timeout) && Handle(BlankA(s), Timeout) == Silent(Standing(s), [])
    ensures CanCall(Standing(s), Elect(BID0)) && Handle(Standing(s), Elect(BID0)).node == Running(s)
    ensures Ask(s) in Handle(Standing(s), Elect(BID0)).sends
  {
    assert s.k.b in BlankA(s).cfg.peers;
  }

  lemma Votes(s: Setup)
    requires Distinct(s.k)
    ensures CanCall(BlankB(s), Receive(Ask(s), true)) && Handle(BlankB(s), Receive(Ask(s), true)).node == Voted(s)
    ensures Yes(s) in Handle(BlankB(s), Receive(Ask(s), true)).sends
  {
  }

  /** What winning makes of a node whose counting commits nothing yet. */
  lemma Elected(n: NodeState, p: Id, q: Id)
    requires n.role == Candidate && n.entries != [] && n.cfg.peers == [p, q] && p != q && n.cfg.quorum == 2
    requires n.commitIndex <= LastIndex(n) && n.snapshotIndex <= LastIndex(n) && LastIndex(n) - n.snapshotIndex == |n.entries| - 1
    requires forall j :: 0 <= j < |n.entries| ==> n.entries[j].term < n.currentTerm
    ensures var next := LastIndex(n) + 1;
      BecomeLeader(n).0 == n.(role := Leader, leaderId := n.cfg.id, nextIndex := map[p := next, q := next],
        matchIndex := map[p := 0, q := 0], entries := n.entries + [Entry(n.currentTerm, next, NOOP)])
  {
    var next := LastIndex(n) + 1;
    assert (map x | x in n.cfg.peers :: next) == map[p := next, q := next];
    assert (map x | x in n.cfg.peers :: 0) == map[p := 0, q := 0];
    var n1 := n.(role := Leader, leaderId := n.cfg.id, nextIndex := map[p := next, q := next],
        matchIndex := map[p := 0, q := 0], entries := n.entries + [Entry(n.currentTerm, next, NOOP)]);
    NothingCounts(n1, p, q, next);
  }

  lemma {:induction false} NothingCounts(n: NodeState, p: Id, q: Id, k: nat)
    requires n.cfg.peers == [p, q] && n.cfg.quorum == 2 && Get(n.matchIndex, p) == 0 && Get(n.matchIndex, q) == 0
    ensures CommitSearch(n, k) == n.commitIndex
    decreases k
  {
    if k > n.commitIndex {
      CountTwo(p, q, n.matchIndex, k);
      NothingCounts(n, p, q, k - 1);
    }
  }

  lemma CountTwo(p: Id, q: Id, matchIndex: map<Id, nat>, k: nat)
    ensures CountMatching([p, q], matchIndex, k)
         == (if Get(matchIndex, p) >= k then 1 else 0) + (if Get(matchIndex, q) >= k then 1 else 0)
  {
    assert [p, q][..1] == [p] && [p][..0] == [];
    assert CountMatching([p], matchIndex, k) == if Get(matchIndex, p) >= k then 1 else 0;
  }

  lemma Wins(s: Setup)
    requires Distinct(s.k)
    ensures CanCall(Running(s), Receive(Yes(s), true)) && Handle(Running(s), Receive(Yes(s), true)).node == Leading(s)
  {
    var k, n := s.k, Running(s).(ballot := Ballot(1, {s.k.a, s.k.b}, true));
    assert {k.a} + {k.b} == {k.a, k.b};
    Elected(n, k.b, k.c);
  }

  lemma FirstElection(s: Setup) returns (run: seq<ClusterState>)
    requires Distinct(s.k)
    ensures IsGuardedRun(run) && run != [] && At(s.k, Last(run), Leading(s), Voted(s), BlankC(s))
  {
    OpeningStarts(s);
    Campaigns(s);
    run := [Opening(s)];
    run := MoveA(s.k, run, BlankA(s), BlankB(s), BlankC(s), Timeout);
    run := MoveA(s.k, run, Standing(s), BlankB(s), BlankC(s), Elect(BID0));
    run := FirstVotes(s, run);
  }

  lemma FirstVotes(s: Setup, before: seq<ClusterState>) returns (run: seq<ClusterState>)
    requires Distinct(s.k) && IsGuardedRun(before) && before != []
    requires At(s.k, Last(before), Running(s), BlankB(s), BlankC(s)) && Ask(s) in Last(before).msgs
    ensures IsGuardedRun(run) && run != [] && At(s.k, Last(run), Leading(s), Voted(s), BlankC(s))
  {
    Votes(s);
    Wins(s);
    run := MoveB(s.k, before, Running(s), BlankB(s), BlankC(s), Receive(Ask(s), true));
    run := MoveA(s.k, run, Running(s), Voted(s), BlankC(s), Receive(Yes(s), true));
  }

  // ---- A proposes ----

  function Proposed(s: Setup, x: Payload): NodeState {
    Leading(s).(entries := [Sentinel(0, 0), Entry(1, 1, NOOP), Entry(1, 2, x)])
  }

  lemma Proposes(n: NodeState, p: Id, q: Id, x: Payload)
    requires Valid(n) && n.role == Leader && n.cfg.peers == [p, q] && n.cfg.quorum == 2
    requires Get(n.matchIndex, p) == 0 && Get(n.matchIndex, q) == 0
    ensures Handle(n, Submit(x, false)) == Silent(n.(entries := n.entries + [Entry(n.currentTerm, LastIndex(n) + 1, x)]),
                                                  [Append([Entry(n.currentTerm, LastIndex(n) + 1, x)])])
  {
    var n1 := n.(entries := n.entries + [Entry(n.currentTerm, LastIndex(n) + 1, x)]);
    NothingCounts(n1, p, q, LastIndex(n1));
  }

  lemma ProposesX(s: Setup, x: Payload)
    requires Distinct(s.k)
    ensures CanCall(Leading(s), Submit(x, false)) && Handle(Leading(s), Submit(x, false)).node == Proposed(s, x)
  {
    Proposes(Leading(s), s.k.b, s.k.c, x);
    assert Leading(s).entries + [Entry(1, 2, x)] == Proposed(s, x).entries;
  }

  /** A blank log takes two entries as they come. */
  lemma MergeTwo(e: Entry, f: Entry)
    requires e.index == 1 && f.index == 2
    ensures Merge([Sentinel(0, 0)], 0, [e, f]) == Merged([Sentinel(0, 0), e, f], [e, f], [])
  {
    assert [e, f][1..] == [f] && [f][1..] == [] && [e] + [f] == [e, f];
    assert [Sentinel(0, 0)] + [e] == [Sentinel(0, 0), e] && [Sentinel(0, 0), e] + [f] == [Sentinel(0, 0), e, f];
    assert Merge([Sentinel(0, 0), e], 0, [f]) == Merged([Sentinel(0, 0), e, f], [f], []);
  }

  // ---- A commits x in term 1 with B's acknowledgement ----

  function ShipX(s: Setup, x: Payload): Msg {
    AppendReq(s.k.a, s.k.b, 0, 1, 0, 0, [Entry(1, 1, NOOP), Entry(1, 2, x)], 0)
  }

  function AckX(s: Setup): Msg { AppendReply(s.k.b, s.k.a, 0, 1, 0, 2, 1, true, 0, 0) }

  function HoldingB(s: Setup, x: Payload): NodeState {
    Voted(s).(leaderId := s.k.a, entries := [Sentinel(0, 0), Entry(1, 1, NOOP), Entry(1, 2, x)])
  }

  function CommittedA(s: Setup, x: Payload): NodeState {
    Proposed(s, x).(commitIndex := 2, matchIndex := map[s.k.b := 2, s.k.c := 0], nextIndex := map[s.k.b := 3, s.k.c := 1])
  }

  lemma ReplicatesX(s: Setup, x: Payload)
    requires Distinct(s.k)
    ensures CanCall(Proposed(s, x), Replicate(s.k.b, 0))
    ensures Handle(Proposed(s, x), Replicate(s.k.b, 0)) == Out(Proposed(s, x), [], {ShipX(s, x)}, [], {})
  {
    var n := Proposed(s, x);
    assert n.entries[1..] == [Entry(1, 1, NOOP), Entry(1, 2, x)];
    assert s.k.b == n.cfg.peers[0];
  }

  lemma AcceptsX(s: Setup, x: Payload)
    requires Distinct(s.k)
    ensures CanCall(Voted(s), Receive(ShipX(s, x), true)) && Allowed(Voted(s), Receive(ShipX(s, x), true))
    ensures Handle(Voted(s), Receive(ShipX(s, x), true)).node == HoldingB(s, x)
    ensures AckX(s) in Handle(Voted(s), Receive(ShipX(s, x), true)).sends
  {
    MergeTwo(Entry(1, 1, NOOP), Entry(1, 2, x));
  }

  lemma CountsX(s: Setup, x: Payload)
    requires Distinct(s.k)
    ensures CanCall(Proposed(s, x), Receive(AckX(s), true)) && Handle(Proposed(s, x), Receive(AckX(s), true)).node == CommittedA(s, x)
  {
    var n := Proposed(s, x).(matchIndex := map[s.k.b := 2, s.k.c := 0], nextIndex := map[s.k.b := 3, s.k.c := 1]);
    TwoEntries(s.k.b, s.k.c, 0, 0, 2);
    TwoEntries(s.k.b, s.k.c, 1, 1, 3);
    CountTwo(s.k.b, s.k.c, n.matchIndex, 2);
    assert Countable(n, 2);
  }

  lemma CommitsX(s: Setup, x: Payload) returns (run: seq<ClusterState>)
    requires Distinct(s.k)
    ensures IsGuardedRun(run) && run != [] && At(s.k, Last(run), CommittedA(s, x), HoldingB(s, x), BlankC(s))
  {
    run := FirstElection(s);
    ProposesX(s, x);
    run := MoveA(s.k, run, Leading(s), Voted(s), BlankC(s), Submit(x, false));
    ReplicatesX(s, x);
    run := MoveA(s.k, run, Proposed(s, x), Voted(s), BlankC(s), Replicate(s.k.b, 0));
    AcceptsX(s, x);
    run := MoveB(s.k, run, Proposed(s, x), Voted(s), BlankC(s), Receive(ShipX(s, x), true));
    CountsX(s, x);
    run := MoveA(s.k, run, Proposed(s, x), HoldingB(s, x), BlankC(s), Receive(AckX(s), true));
  }

  /** Raising one of two map entries. */
  lemma TwoEntries(p: Id, q: Id, x: nat, y: nat, z: nat)
    requires p != q
    ensures map[p := x, q := y][p := z] == map[p := z, q := y] && map[p := x, q := y][q := z] == map[p := x, q := z]
  {
  }
}
