/**
 InstallSnapshot restores the jukebox whenever the snapshot is newer than the last one, but never lowers
 lastApplied (internal/raft/snapshot.go:108-150): exactly when that is harmless, and a run in which it is not.
 */
module SnapshotRewinds {
  import opened JukeboxTypes
  import opened JukeboxSpec
  import opened RaftLog
  import opened Storage
  import opened Node
  import opened Cluster
  import opened Machine
  import opened Scenario

  // ---- Exactly when the fold survives ----

  /** A follower whose jukebox is the fold of its log, and a snapshot of that same log. */
  ghost predicate Meets(n: NodeState, log: Log, m: Msg, snap: nat, included: nat, applied: nat) {
    && Valid(n) && n.snapshotIndex == snap && n.lastApplied == applied <= |log| && n.machine == Fold(log[..applied])
    && m.SnapReq? && m.lastIndex == included <= |log| && m.data == Some(Fold(log[..included]))
  }

  ghost predicate StaysFolded(n: NodeState, log: Log, m: Msg)
    requires m.SnapReq?
  {
    var n' := SnapshotAsFollower(n, m).node;
    n'.lastApplied <= |log| && n'.machine == Fold(log[..n'.lastApplied])
  }

  const TUNE: Song := Song("1", "tune", "")
  const ADD: Payload := Decoded(Plain(OP_ENQUEUE).(song := Some(TUNE)))

  function Adds(k: nat): Log {
    if k == 0 then [] else Adds(k - 1) + [Entry(1, k, ADD)]
  }

  lemma AddGrows(st: JukeState)
    ensures |Apply(st, ADD).0.queue| == |st.queue| + 1
  {
  }

  lemma {:induction false} AddsFold(k: nat, i: nat)
    requires i <= k
    ensures |Adds(k)| == k && |Fold(Adds(k)[..i]).queue| == i
    decreases k
  {
    if k > 0 {
      AddsFold(k - 1, if i < k then i else k - 1);
      var log := Adds(k);
      if i < k {
        assert log[..i] == Adds(k - 1)[..i];
      } else {
        assert log[..k] == log && log[..k - 1] == Adds(k - 1)[..k - 1];
        AddGrows(Fold(log[..k - 1]));
      }
    }
  }

  lemma AddsIndexed(k: nat)
    ensures |Adds(k)| == k && Indexed(Adds(k))
  {
  }

  lemma Rewound(snap: nat, included: nat, applied: nat) returns (n: NodeState, log: Log, m: Msg)
    requires snap < included < applied
    ensures Meets(n, log, m, snap, included, applied) && !StaysFolded(n, log, m)
  {
    log := Adds(applied);
    AddsFold(applied, applied);
    AddsFold(applied, included);
    AddsIndexed(applied);
    n := Blank("", [], -1).(snapshotIndex := snap, snapshotTerm := 1, entries := [Sentinel(snap, 1)] + log[snap..],
                            commitIndex := applied, lastApplied := applied, machine := Fold(log[..applied]));
    m := SnapReq("", "", 0, included, 1, Some(Fold(log[..included])));
  }

  /**
   Whatever the log holds, the jukebox stays the fold up to lastApplied, if and only if the
   snapshot is already covered or reaches at least as far as was applied.
   */
  lemma FoldSurvivesIff(snap: nat, included: nat, applied: nat)
    ensures (forall n, log, m :: Meets(n, log, m, snap, included, applied) ==> StaysFolded(n, log, m))
       <==> included <= snap || included >= applied
  {
    if snap < included < applied {
      var n, log, m := Rewound(snap, included, applied);
    } else {
      forall n, log, m | Meets(n, log, m, snap, included, applied) ensures StaysFolded(n, log, m) {
        FoldThreshold(log[..included]);
      }
    }
  }

  // ---- A run in which a late snapshot rewinds a follower ----

  /** A's jukebox after its first two entries. */
  function After2(x: Payload): JukeState { Apply(Apply(INITIAL, NOOP).0, x).0 }
  function After3(x: Payload): JukeState { Apply(After2(x), ADD).0 }

  function CompactedA(s: Setup, x: Payload): NodeState {
    CommittedA(s, x).(lastApplied := 2, machine := After2(x), entries := [Sentinel(2, 1)],
                      snapshotIndex := 2, snapshotTerm := 1, snapshotData := Some(After2(x)))
  }

  lemma AppliesTwo(n: NodeState, e: Entry, f: Entry)
    requires Valid(n) && n.entries == [Sentinel(0, 0), e, f] && n.snapshotIndex == 0 && n.lastApplied == 0 && n.commitIndex == 2
    requires n.pending == map[]
    ensures ApplyLoop(n).node == n.(lastApplied := 2, machine := Apply(Apply(n.machine, e.payload).0, f.payload).0)
  {
    var one := ApplyOne(n);
    assert one.node == n.(lastApplied := 1, machine := Apply(n.machine, e.payload).0);
    var two := ApplyOne(one.node);
    assert two.node == n.(lastApplied := 2, machine := Apply(Apply(n.machine, e.payload).0, f.payload).0);
    assert ApplyLoop(two.node).node == two.node;
    assert ApplyLoop(one.node).node == two.node;
  }

  lemma Compacts(s: Setup, x: Payload)
    requires Distinct(s.k) && s.ta == 1
    ensures CanCall(CommittedA(s, x), ApplyCommitted) && Handle(CommittedA(s, x), ApplyCommitted).node == CompactedA(s, x)
  {
    AppliesTwo(CommittedA(s, x), Entry(1, 1, NOOP), Entry(1, 2, x));
  }

  function Late(s: Setup, x: Payload): Msg { SnapReq(s.k.a, s.k.b, 1, 2, 1, Some(After2(x))) }

  lemma Ships(s: Setup, x: Payload)
    requires Distinct(s.k)
    ensures CanCall(CompactedA(s, x), ShipSnapshot(s.k.b))
    ensures Handle(CompactedA(s, x), ShipSnapshot(s.k.b)) == Out(CompactedA(s, x), [], {Late(s, x)}, [], {})
  {
    assert s.k.b == CompactedA(s, x).cfg.peers[0];
  }

  function AddedA(s: Setup, x: Payload): NodeState {
    CompactedA(s, x).(entries := [Sentinel(2, 1), Entry(1, 3, ADD)])
  }

  lemma AddsThird(s: Setup, x: Payload)
    requires Distinct(s.k)
    ensures CanCall(CompactedA(s, x), Submit(ADD, false)) && Handle(CompactedA(s, x), Submit(ADD, false)).node == AddedA(s, x)
  {
    var n := AddedA(s, x);
    assert CompactedA(s, x).entries + [Entry(1, 3, ADD)] == n.entries;
    CountTwo(s.k.b, s.k.c, n.matchIndex, 3);
    assert CommitSearch(n, 2) == 2;
  }

  function Third(s: Setup): Msg { AppendReq(s.k.a, s.k.b, 1, 1, 2, 1, [Entry(1, 3, ADD)], 2) }
  function ThirdAck(s: Setup): Msg { AppendReply(s.k.b, s.k.a, 1, 1, 2, 1, 1, true, 0, 0) }
  function Beat(s: Setup): Msg { AppendReq(s.k.a, s.k.b, 2, 1, 3, 1, [], 3) }

  function ThreeB(s: Setup, x: Payload): NodeState {
    HoldingB(s, x).(entries := [Sentinel(0, 0), Entry(1, 1, NOOP), Entry(1, 2, x), Entry(1, 3, ADD)], commitIndex := 2)
  }

  function ThreeA(s: Setup, x: Payload): NodeState {
    AddedA(s, x).(commitIndex := 3, matchIndex := map[s.k.b := 3, s.k.c := 0], nextIndex := map[s.k.b := 4, s.k.c := 1])
  }

  function AppliedB(s: Setup, x: Payload): NodeState {
    ThreeB(s, x).(commitIndex := 3, lastApplied := 3, machine := After3(x))
  }

  lemma ReplicatesThird(s: Setup, x: Payload)
    requires Distinct(s.k)
    ensures CanCall(AddedA(s, x), Replicate(s.k.b, 1))
    ensures Handle(AddedA(s, x), Replicate(s.k.b, 1)) == Out(AddedA(s, x), [], {Third(s)}, [], {})
  {
    assert AddedA(s, x).entries[1..] == [Entry(1, 3, ADD)];
    assert s.k.b == AddedA(s, x).cfg.peers[0];
  }

  lemma AcceptsThird(s: Setup, x: Payload)
    requires Distinct(s.k)
    ensures CanCall(HoldingB(s, x), Receive(Third(s), true)) && Allowed(HoldingB(s, x), Receive(Third(s), true))
    ensures Handle(HoldingB(s, x), Receive(Third(s), true)).node == ThreeB(s, x)
    ensures ThirdAck(s) in Handle(HoldingB(s, x), Receive(Third(s), true)).sends
  {
    var n, e := HoldingB(s, x), Entry(1, 3, ADD);
    assert [e][1..] == [];
    assert n.entries + [e] == ThreeB(s, x).entries;
    assert Merge(n.entries, 0, [e]) == Merged(ThreeB(s, x).entries, [e], []);
  }

  lemma CountsThird(s: Setup, x: Payload)
    requires Distinct(s.k)
    ensures CanCall(AddedA(s, x), Receive(ThirdAck(s), true)) && Handle(AddedA(s, x), Receive(ThirdAck(s), true)).node == ThreeA(s, x)
  {
    var n := AddedA(s, x).(matchIndex := map[s.k.b := 3, s.k.c := 0], nextIndex := map[s.k.b := 4, s.k.c := 1]);
    TwoEntries(s.k.b, s.k.c, 2, 0, 3);
    TwoEntries(s.k.b, s.k.c, 3, 1, 4);
    CountTwo(s.k.b, s.k.c, n.matchIndex, 3);
    assert Countable(n, 3);
  }

  lemma Beats(s: Setup, x: Payload)
    requires Distinct(s.k)
    ensures CanCall(ThreeA(s, x), Replicate(s.k.b, 2))
    ensures Handle(ThreeA(s, x), Replicate(s.k.b, 2)) == Out(ThreeA(s, x), [], {Beat(s)}, [], {})
  {
    assert s.k.b == ThreeA(s, x).cfg.peers[0];
  }

  lemma HearsBeat(s: Setup, x: Payload)
    requires Distinct(s.k)
    ensures CanCall(ThreeB(s, x), Receive(Beat(s), true)) && Allowed(ThreeB(s, x), Receive(Beat(s), true))
    ensures Handle(ThreeB(s, x), Receive(Beat(s), true)).node == ThreeB(s, x).(commitIndex := 3)
  {
  }

  lemma AppliesThree(s: Setup, x: Payload)
    requires Distinct(s.k) && s.tb == -1
    ensures CanCall(ThreeB(s, x).(commitIndex := 3), ApplyCommitted)
    ensures Handle(ThreeB(s, x).(commitIndex := 3), ApplyCommitted).node == AppliedB(s, x)
  {
    var n := ThreeB(s, x).(commitIndex := 3);
    var one := ApplyOne(n);
    assert one.node == n.(lastApplied := 1, machine := Apply(INITIAL, NOOP).0);
    var two := ApplyOne(one.node);
    assert two.node == n.(lastApplied := 2, machine := After2(x));
    var three := ApplyOne(two.node);
    assert three.node == AppliedB(s, x);
    assert ApplyLoop(three.node).node == three.node;
    assert ApplyLoop(two.node).node == three.node;
    assert ApplyLoop(one.node).node == three.node;
  }

  lemma Rewinds(s: Setup, x: Payload)
    requires Distinct(s.k)
    ensures CanCall(AppliedB(s, x), Receive(Late(s, x), true))
    ensures var n := Handle(AppliedB(s, x), Receive(Late(s, x), true)).node; n.lastApplied == 3 && n.machine == After2(x)
  {
  }

  lemma ThirdReplicated(s: Setup, x: Payload) returns (run: seq<ClusterState>)
    requires Distinct(s.k) && s.ta == 1
    ensures IsGuardedRun(run) && run != [] && At(s.k, Last(run), ThreeA(s, x), ThreeB(s, x), BlankC(s)) && Late(s, x) in Last(run).msgs
  {
    run := CommitsX(s, x);
    Compacts(s, x);
    run := MoveA(s.k, run, CommittedA(s, x), HoldingB(s, x), BlankC(s), ApplyCommitted);
    Ships(s, x);
    run := MoveA(s.k, run, CompactedA(s, x), HoldingB(s, x), BlankC(s), ShipSnapshot(s.k.b));
    AddsThird(s, x);
    run := MoveA(s.k, run, CompactedA(s, x), HoldingB(s, x), BlankC(s), Submit(ADD, false));
    run := ThirdShipped(s, x, run);
  }

  lemma ThirdShipped(s: Setup, x: Payload, before: seq<ClusterState>) returns (run: seq<ClusterState>)
    requires Distinct(s.k) && IsGuardedRun(before) && before != [] && At(s.k, Last(before), AddedA(s, x), HoldingB(s, x), BlankC(s))
    ensures IsGuardedRun(run) && run != [] && At(s.k, Last(run), ThreeA(s, x), ThreeB(s, x), BlankC(s))
    ensures Last(before).msgs <= Last(run).msgs
  {
    ReplicatesThird(s, x);
    run := MoveA(s.k, before, AddedA(s, x), HoldingB(s, x), BlankC(s), Replicate(s.k.b, 1));
    AcceptsThird(s, x);
    run := MoveB(s.k, run, AddedA(s, x), HoldingB(s, x), BlankC(s), Receive(Third(s), true));
    CountsThird(s, x);
    run := MoveA(s.k, run, AddedA(s, x), ThreeB(s, x), BlankC(s), Receive(ThirdAck(s), true));
  }

  /**
   In every three-node cluster there is a guarded run whose last step, the arrival of a late snapshot, undoes an
   applied command at a follower without moving its lastApplied.
   */
  lemma LateSnapshot(k: Trio, x: Payload) returns (run: seq<ClusterState>)
    requires Distinct(k)
    ensures IsGuardedRun(run) && |run| > 1
    ensures var c := run[|run| - 2]; var c' := run[|run| - 1];
      && k.b in c.nodes && k.b in c'.nodes && c'.nodes[k.b].lastApplied == c.nodes[k.b].lastApplied == 3
      && c.nodes[k.b].machine == Apply(c'.nodes[k.b].machine, ADD).0 != c'.nodes[k.b].machine
  {
    var s := Setup(k, 1, -1);
    run := ThirdReplicated(s, x);
    Beats(s, x);
    HearsBeat(s, x);
    run := MoveA(k, run, ThreeA(s, x), ThreeB(s, x), BlankC(s), Replicate(k.b, 2));
    run := MoveB(k, run, ThreeA(s, x), ThreeB(s, x), BlankC(s), Receive(Beat(s), true));
    run := RewoundLast(s, x, run);
    AddGrows(After2(x));
  }

  lemma RewoundLast(s: Setup, x: Payload, r: seq<ClusterState>) returns (run: seq<ClusterState>)
    requires Distinct(s.k) && s.tb == -1 && IsGuardedRun(r) && r != [] && Late(s, x) in Last(r).msgs
    requires At(s.k, Last(r), ThreeA(s, x), ThreeB(s, x).(commitIndex := 3), BlankC(s))
    ensures IsGuardedRun(run) && |run| > 1
    ensures var c := run[|run| - 2]; var c' := run[|run| - 1];
      && s.k.b in c.nodes && s.k.b in c'.nodes && c.nodes[s.k.b] == AppliedB(s, x)
      && c'.nodes[s.k.b].lastApplied == 3 && c'.nodes[s.k.b].machine == After2(x)
  {
    AppliesThree(s, x);
    var r1 := MoveB(s.k, r, ThreeA(s, x), ThreeB(s, x).(commitIndex := 3), BlankC(s), ApplyCommitted);
    Rewinds(s, x);
    run := MoveB(s.k, r1, ThreeA(s, x), AppliedB(s, x), BlankC(s), Receive(Late(s, x), true));
    assert run[|run| - 2] == run[..|r1|][|r1| - 1];
  }
}
