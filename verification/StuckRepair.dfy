/**
 A leader that handles an old rejection once more after it has compacted its log ships its snapshot over and over
 (internal/raft/snapshot.go:88-91 with internal/raft/replication.go:121-125): a run that reaches the point
 from which repair makes no progress.
 */
module StuckRepair {
  import opened JukeboxTypes
  import opened JukeboxSpec
  import opened RaftLog
  import opened Storage
  import opened Node
  import opened Cluster
  import opened Theorems
  import FreeRuns
  import opened Repair
  import opened RepairRuns
  import opened Scenario
  import opened Climbing

  const ONE: Entry := Entry(1, 1, NOOP)
  const TWO: Entry := Entry(2, 2, NOOP)

  function Base(k: Trio): Setup { Setup(k, 1, -1) }

  // ---- A crashes with one entry of its own, and wins term 2 ----

  function Reloaded(k: Trio): NodeState {
    BlankA(Base(k)).(currentTerm := 1, votedFor := k.a, entries := [Sentinel(0, 0), ONE])
  }

  lemma Reloads(k: Trio, r: seq<ClusterState>) returns (run: seq<ClusterState>)
    requires Distinct(k) && IsGuardedRun(r) && r != [] && At(k, Last(r), Leading(Base(k)), Voted(Base(k)), BlankC(Base(k)))
    ensures IsGuardedRun(run) && run != [] && At(k, Last(run), Reloaded(k), Voted(Base(k)), BlankC(Base(k)))
  {
    var n, c := Leading(Base(k)), Last(r);
    var step := Crash(k.a, ApplyCommitted, 0);
    assert CanCall(n, ApplyCommitted) && Handle(n, ApplyCommitted).writes == [];
    var c' := MoveCrash(r, step);
    run := r + [c'];
    var steps :| IsRun(r, steps);
    FreeRuns.RunIsFree(r, steps);
    FreeRuns.StorageMirrors(r, steps, |r| - 1, k.a);
    var d := c.disks[k.a];
    assert Replay(d, Handle(n, ApplyCommitted).writes[..0]) == d;
    assert Load(n.cfg, d) == Reloaded(k);
    Placed(k, c, c', n, Voted(Base(k)), BlankC(Base(k)), k.a, Reloaded(k));
  }

  function VotedTwice(k: Trio): NodeState { Voted(Base(k)).(currentTerm := 2, votedFor := k.a) }

  function Again(k: Trio): NodeState {
    Climb(Reloaded(k)).(role := Leader, leaderId := k.a, ballot := Ballot(2, {k.a, k.b}, true),
      nextIndex := map[k.b := 2, k.c := 2], matchIndex := map[k.b := 0, k.c := 0], entries := [Sentinel(0, 0), ONE, TWO])
  }

  function AskTwo(k: Trio): Msg { VoteReq(k.a, k.b, 2, 1, 1, false) }
  function YesTwo(k: Trio): Msg { VoteReply(k.b, k.a, 2, false, 2, true) }

  lemma VotesTwice(k: Trio)
    requires Distinct(k)
    ensures CanCall(Voted(Base(k)), Receive(AskTwo(k), true)) && Handle(Voted(Base(k)), Receive(AskTwo(k), true)).node == VotedTwice(k)
    ensures YesTwo(k) in Handle(Voted(Base(k)), Receive(AskTwo(k), true)).sends
  {
  }

  lemma WinsTwice(k: Trio)
    requires Distinct(k)
    ensures CanCall(Climb(Reloaded(k)), Receive(YesTwo(k), true)) && Handle(Climb(Reloaded(k)), Receive(YesTwo(k), true)).node == Again(k)
  {
    var n := Climb(Reloaded(k));
    assert {k.a} + {k.b} == {k.a, k.b};
    Elected(n.(ballot := Ballot(2, {k.a, k.b}, true)), k.b, k.c);
    assert n.entries + [TWO] == Again(k).entries;
  }

  lemma LeadsAgain(k: Trio) returns (run: seq<ClusterState>)
    requires Distinct(k)
    ensures IsGuardedRun(run) && run != [] && At(k, Last(run), Again(k), VotedTwice(k), BlankC(Base(k)))
  {
    var d := BlankC(Base(k));
    run := FirstElection(Base(k));
    run := Reloads(k, run);
    run := ClimbA(k, run, Reloaded(k), Voted(Base(k)), d, 1);
    assert Climbed(Reloaded(k), 1) == Climb(Climbed(Reloaded(k), 0)) == Climb(Reloaded(k));
    assert k.b == Reloaded(k).cfg.peers[0];
    assert Asks(Reloaded(k), 2, k.b) == AskTwo(k);
    VotesTwice(k);
    WinsTwice(k);
    run := MoveB(k, run, Climb(Reloaded(k)), Voted(Base(k)), d, Receive(AskTwo(k), true));
    run := MoveA(k, run, Climb(Reloaded(k)), VotedTwice(k), d, Receive(YesTwo(k), true));
  }

  // ---- B rejects a first request, accepts a second ----

  function Ahead(k: Trio): Msg { AppendReq(k.a, k.b, 0, 2, 1, 1, [TWO], 0) }
  function No(k: Trio): Msg { AppendReply(k.b, k.a, 0, 2, 1, 1, 2, false, 1, 0) }
  function Behind(k: Trio): Msg { AppendReq(k.a, k.b, 1, 2, 0, 0, [ONE, TWO], 0) }
  function Ok(k: Trio): Msg { AppendReply(k.b, k.a, 1, 2, 0, 2, 2, true, 0, 0) }

  function Following(k: Trio): NodeState { VotedTwice(k).(leaderId := k.a) }
  function BackedUp(k: Trio): NodeState { Again(k).(nextIndex := map[k.b := 1, k.c := 2]) }
  function InStep(k: Trio): NodeState { Following(k).(entries := [Sentinel(0, 0), ONE, TWO]) }

  function Counted(k: Trio): NodeState {
    Again(k).(nextIndex := map[k.b := 3, k.c := 2], matchIndex := map[k.b := 2, k.c := 0], commitIndex := 2)
  }

  lemma AsksAhead(k: Trio)
    requires Distinct(k)
    ensures CanCall(Again(k), Replicate(k.b, 0)) && Handle(Again(k), Replicate(k.b, 0)) == Out(Again(k), [], {Ahead(k)}, [], {})
  {
    assert Again(k).entries[2..] == [TWO];
    assert k.b == Again(k).cfg.peers[0];
  }

  lemma Rejects(k: Trio)
    requires Distinct(k)
    ensures CanCall(VotedTwice(k), Receive(Ahead(k), true)) && Allowed(VotedTwice(k), Receive(Ahead(k), true))
    ensures Handle(VotedTwice(k), Receive(Ahead(k), true)).node == Following(k) && No(k) in Handle(VotedTwice(k), Receive(Ahead(k), true)).sends
  {
  }

  lemma BacksUp(k: Trio)
    requires Distinct(k)
    ensures CanCall(Again(k), Receive(No(k), true)) && Handle(Again(k), Receive(No(k), true)).node == BackedUp(k)
  {
    TwoEntries(k.b, k.c, 2, 2, 1);
  }

  lemma AsksBehind(k: Trio)
    requires Distinct(k)
    ensures CanCall(BackedUp(k), Replicate(k.b, 1)) && Handle(BackedUp(k), Replicate(k.b, 1)) == Out(BackedUp(k), [], {Behind(k)}, [], {})
  {
    assert BackedUp(k).entries[1..] == [ONE, TWO];
    assert k.b == BackedUp(k).cfg.peers[0];
  }

  lemma Accepts(k: Trio)
    requires Distinct(k)
    ensures CanCall(Following(k), Receive(Behind(k), true)) && Allowed(Following(k), Receive(Behind(k), true))
    ensures Handle(Following(k), Receive(Behind(k), true)).node == InStep(k) && Ok(k) in Handle(Following(k), Receive(Behind(k), true)).sends
  {
    MergeTwo(ONE, TWO);
  }

  lemma CountsIn(k: Trio)
    requires Distinct(k)
    ensures CanCall(BackedUp(k), Receive(Ok(k), true)) && Handle(BackedUp(k), Receive(Ok(k), true)).node == Counted(k)
  {
    TwoEntries(k.b, k.c, 0, 0, 2);
    TwoEntries(k.b, k.c, 1, 2, 3);
    var n := Again(k).(nextIndex := map[k.b := 3, k.c := 2], matchIndex := map[k.b := 2, k.c := 0]);
    CountTwo(k.b, k.c, n.matchIndex, 2);
    assert Countable(n, 2);
  }

  lemma Rejected(k: Trio) returns (run: seq<ClusterState>)
    requires Distinct(k)
    ensures IsGuardedRun(run) && run != [] && At(k, Last(run), BackedUp(k), Following(k), BlankC(Base(k))) && No(k) in Last(run).msgs
  {
    var d := BlankC(Base(k));
    run := LeadsAgain(k);
    AsksAhead(k);
    run := MoveA(k, run, Again(k), VotedTwice(k), d, Replicate(k.b, 0));
    Rejects(k);
    run := MoveB(k, run, Again(k), VotedTwice(k), d, Receive(Ahead(k), true));
    BacksUp(k);
    run := MoveA(k, run, Again(k), Following(k), d, Receive(No(k), true));
  }

  lemma Replicated(k: Trio) returns (run: seq<ClusterState>)
    requires Distinct(k)
    ensures IsGuardedRun(run) && run != [] && At(k, Last(run), Counted(k), InStep(k), BlankC(Base(k))) && No(k) in Last(run).msgs
  {
    var d := BlankC(Base(k));
    run := Rejected(k);
    AsksBehind(k);
    run := MoveA(k, run, BackedUp(k), Following(k), d, Replicate(k.b, 1));
    Accepts(k);
    run := MoveB(k, run, BackedUp(k), Following(k), d, Receive(Behind(k), true));
    CountsIn(k);
    run := MoveA(k, run, BackedUp(k), InStep(k), d, Receive(Ok(k), true));
  }

  // ---- A compacts, and the old rejection arrives once more ----

  function Compact(k: Trio): NodeState {
    Counted(k).(lastApplied := 2, entries := [Sentinel(2, 2)], snapshotIndex := 2, snapshotTerm := 2, snapshotData := Some(INITIAL))
  }

  function Fallen(k: Trio): NodeState { Compact(k).(nextIndex := map[k.b := 1, k.c := 2]) }
  function Waiting(k: Trio, x: Payload): NodeState { Fallen(k).(entries := [Sentinel(2, 2), Entry(2, 3, x)]) }

  lemma CompactsA(k: Trio)
    requires Distinct(k)
    ensures CanCall(Counted(k), ApplyCommitted) && Handle(Counted(k), ApplyCommitted).node == Compact(k)
  {
    var n := Counted(k);
    var one := ApplyOne(n);
    assert one.node == n.(lastApplied := 1);
    var two := ApplyOne(one.node);
    assert two.node == n.(lastApplied := 2);
    assert ApplyLoop(two.node).node == two.node;
    assert ApplyLoop(one.node).node == two.node;
  }

  lemma Falls(k: Trio)
    requires Distinct(k)
    ensures CanCall(Compact(k), Receive(No(k), true)) && Handle(Compact(k), Receive(No(k), true)).node == Fallen(k)
  {
    TwoEntries(k.b, k.c, 3, 2, 1);
  }

  lemma Waits(k: Trio, x: Payload)
    requires Distinct(k)
    ensures CanCall(Fallen(k), Submit(x, false)) && Handle(Fallen(k), Submit(x, false)).node == Waiting(k, x)
  {
    var n := Waiting(k, x);
    assert Fallen(k).entries + [Entry(2, 3, x)] == n.entries;
    CountTwo(k.b, k.c, n.matchIndex, 3);
    assert CommitSearch(n, 2) == 2;
  }

  lemma StuckRun(k: Trio, x: Payload) returns (run: seq<ClusterState>)
    requires Distinct(k)
    ensures IsGuardedRun(run) && run != [] && At(k, Last(run), Waiting(k, x), InStep(k), BlankC(Base(k)))
  {
    var d := BlankC(Base(k));
    run := Replicated(k);
    CompactsA(k);
    run := MoveA(k, run, Counted(k), InStep(k), d, ApplyCommitted);
    Falls(k);
    run := MoveA(k, run, Compact(k), InStep(k), d, Receive(No(k), true));
    Waits(k, x);
    run := MoveA(k, run, Fallen(k), InStep(k), d, Submit(x, false));
  }

  /**
   In every three-node cluster there is a guarded run to a leader that is stuck with a peer: however many rounds of
   requests and replies follow, the leader's record of the peer does not change and the peer does not get the new entry.
   */
  lemma StuckReached(k: Trio, x: Payload) returns (run: seq<ClusterState>)
    requires Distinct(k)
    ensures IsGuardedRun(run) && run != [] && k.a in Last(run).nodes && k.b in Last(run).nodes
    ensures var n, f := Last(run).nodes[k.a], Last(run).nodes[k.b];
      && n.role == Leader && f.currentTerm == n.currentTerm && Stuck(n, k.b) && Holds(n, Entry(2, 3, x)) && f.entries != []
      && forall r: nat {:trigger Rounds(n, f, k.b, r)} ::
           Rounds(n, f, k.b, r).0 == n && !Holds(Rounds(n, f, k.b, r).1, Entry(2, 3, x)) && Rounds(n, f, k.b, r).1.snapshotIndex < 3
  {
    run := StuckRun(k, x);
    var steps :| IsRun(run, steps);
    var n, f := Waiting(k, x), InStep(k);
    assert k.b == n.cfg.peers[0];
    forall r: nat ensures Rounds(n, f, k.b, r).0 == n && !Holds(Rounds(n, f, k.b, r).1, Entry(2, 3, x)) && Rounds(n, f, k.b, r).1.snapshotIndex < 3 {
      StuckForever(run, steps, |run| - 1, k.a, k.b, r, Entry(2, 3, x));
    }
  }
}
