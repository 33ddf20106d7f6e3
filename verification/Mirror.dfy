/**
 One node and its storage, whatever its peers send: storage mirrors memory after every storage call of every
 section, the log stays contiguous, and the recorded vote of a term never changes.
 */
module Mirror {
  import opened JukeboxTypes
  import opened JukeboxSpec
  import opened RaftLog
  import opened Storage
  import opened Node
  import opened Relation
  import opened Compaction
  import opened SimAppend
  import opened SimElect
  import opened SimLeader
  import opened SimSnapshot

  // ---- Hard state ----

  function HardOf(n: NodeState): HardState {
    HardState(n.currentTerm, n.votedFor)
  }

  /** The term rises, or stays with its vote, which may only have been cast. */
  predicate HardStep(h: HardState, h': HardState) {
    h'.term > h.term || (h'.term == h.term && (h'.votedFor == h.votedFor || h.votedFor == ""))
  }

  lemma HardSteps(h: HardState, h1: HardState, h2: HardState)
    requires HardStep(h, h1) && HardStep(h1, h2)
    ensures HardStep(h, h2)
  {
  }

  // ---- Mirroring ----

  /** The node and its storage stand for one whole log. */
  ghost predicate MirrorsBy(n: NodeState, d: Disk, log: Log) {
    Indexed(log) && EntriesRel(n.entries, n.snapshotIndex, log) && n.snapshotTerm == TermAt(log, n.snapshotIndex) && DiskRel(n, d, log)
  }

  ghost predicate Mirrors(n: NodeState, d: Disk) {
    exists log :: MirrorsBy(n, d, log)
  }

  lemma MirrorsContiguous(n: NodeState, d: Disk)
    requires Mirrors(n, d)
    ensures Contiguous(n)
  {
    var log :| MirrorsBy(n, d, log);
    LastTransparent(n, log);
    IndexTransparent(n, log);
  }

  /** A reload rebuilds what is durable of the node. */
  lemma MirrorsReload(n: NodeState, d: Disk)
    requires Mirrors(n, d)
    ensures var r := Load(n.cfg, d);
      && Mirrors(r, d) && HardOf(r) == HardOf(n) && r.entries == n.entries
      && r.snapshotIndex == n.snapshotIndex && r.snapshotTerm == n.snapshotTerm && r.snapshotData == n.snapshotData
  {
    var log :| MirrorsBy(n, d, log);
    LoadTransparent(n.cfg, n, d, log);
    assert MirrorsBy(Load(n.cfg, d), d, log);
  }

  /** After the first j storage calls of an outcome, storage mirrors n', whose vote has not been taken back. */
  ghost predicate Point(n: NodeState, d: Disk, o: Out, j: nat, n': NodeState) {
    && j <= |o.writes| && Mirrors(n', Replay(d, o.writes[..j])) && HardStep(HardOf(n), HardOf(n')) && n'.cfg == n.cfg
    && (j == |o.writes| ==> n' == o.node)
  }

  predicate SameDurable(n: NodeState, n': NodeState) {
    && n'.cfg == n.cfg && HardOf(n') == HardOf(n) && n'.entries == n.entries
    && n'.snapshotIndex == n.snapshotIndex && n'.snapshotTerm == n.snapshotTerm && n'.snapshotData == n.snapshotData
  }

  lemma DurableMirrors(n: NodeState, n': NodeState, d: Disk)
    requires Mirrors(n, d) && SameDurable(n, n')
    ensures Mirrors(n', d)
  {
    var log :| MirrorsBy(n, d, log);
    assert MirrorsBy(n', d, log);
  }

  /** Before the first storage call, or in a section that makes none. */
  lemma StillPoint(n: NodeState, d: Disk, o: Out) returns (n': NodeState)
    requires Mirrors(n, d) && (o.writes == [] ==> SameDurable(n, o.node))
    ensures Point(n, d, o, 0, n')
  {
    if o.writes == [] {
      n' := o.node;
      DurableMirrors(n, n', d);
    } else {
      n' := n;
    }
  }

  lemma HardMirrors(n: NodeState, d: Disk, hard: HardState)
    requires Mirrors(n, d)
    ensures Mirrors(n.(currentTerm := hard.term, votedFor := hard.votedFor), Do(d, SaveHard(hard)))
  {
    var log :| MirrorsBy(n, d, log);
    assert MirrorsBy(n.(currentTerm := hard.term, votedFor := hard.votedFor), Do(d, SaveHard(hard)), log);
  }

  lemma ObserveMirrors(n: NodeState, d: Disk, term: nat)
    requires Mirrors(n, d)
    ensures Mirrors(Observe(n, term), Replay(d, ObserveWrites(n, term))) && HardStep(HardOf(n), HardOf(Observe(n, term)))
  {
    if term > n.currentTerm {
      HardMirrors(n, d, HardState(term, ""));
      ReplayOne(d, SaveHard(HardState(term, "")));
      DurableMirrors(n.(currentTerm := term, votedFor := ""), Observe(n, term), Do(d, SaveHard(HardState(term, ""))));
    }
  }

  /** What a section reaches after observing a term, it reaches from before observing it. */
  lemma AfterPoint(n: NodeState, n1: NodeState, d: Disk, term: nat, o: Out, j: nat, n': NodeState)
    requires HardStep(HardOf(n), HardOf(n1)) && n1.cfg == n.cfg && Point(n1, Replay(d, ObserveWrites(n, term)), o, j, n')
    ensures Point(n, d, After(n, term, o), |ObserveWrites(n, term)| + j, n')
  {
    ReplayPrefix(d, ObserveWrites(n, term), o.writes, |ObserveWrites(n, term)| + j);
    HardSteps(HardOf(n), HardOf(n1), HardOf(n'));
  }

  // ---- Appending one entry ----

  lemma OneMirrors(n: NodeState, d: Disk, e: Entry)
    requires Mirrors(n, d) && n.entries != [] && e.index == LastIndex(n) + 1
    ensures Mirrors(n.(entries := n.entries + [e]), Replay(d, [Append([e])]))
  {
    var log :| MirrorsBy(n, d, log);
    LastTransparent(n, log);
    EntriesAppend(n.entries, n.snapshotIndex, log, e);
    AppendOnDisk(d.log, n.snapshotIndex, log, [e]);
    ReplayOne(d, Append([e]));
    assert MirrorsBy(n.(entries := n.entries + [e]), Do(d, Append([e])), log + [e]);
  }

  lemma BecomeLeaderMirrors(n: NodeState, d: Disk)
    requires Mirrors(n, d) && n.entries != []
    ensures var (n', ws) := BecomeLeader(n); Mirrors(n', Replay(d, ws)) && HardOf(n') == HardOf(n) && n'.cfg == n.cfg
  {
    if n.role != Leader {
      var e := Entry(n.currentTerm, LastIndex(n) + 1, NOOP);
      OneMirrors(n, d, e);
      DurableMirrors(n.(entries := n.entries + [e]), BecomeLeader(n).0, Replay(d, [Append([e])]));
    }
  }

  lemma ProposePointL(n: NodeState, d: Disk, payload: Payload, wait: bool, j: nat) returns (n': NodeState)
    requires Mirrors(n, d) && n.entries != [] && n.role == Leader && j <= |ProposeEntry(n, payload, wait).writes|
    ensures Point(n, d, ProposeEntry(n, payload, wait), j, n')
  {
    var o := ProposeEntry(n, payload, wait);
    if j == 0 {
      n' := StillPoint(n, d, o);
    } else {
      n' := o.node;
      var e := Entry(n.currentTerm, LastIndex(n) + 1, payload);
      OneMirrors(n, d, e);
      DurableMirrors(n.(entries := n.entries + [e]), n', Replay(d, [Append([e])]));
      assert o.writes[..j] == o.writes;
    }
  }

  // ---- Elections ----

  lemma ElectPointL(n: NodeState, d: Disk, bid: Bid, j: nat) returns (n': NodeState)
    requires Mirrors(n, d) && n.entries != [] && j <= |StartElection(n, bid).writes|
    ensures Point(n, d, StartElection(n, bid), j, n')
  {
    var o := StartElection(n, bid);
    if j == 0 {
      n' := StillPoint(n, d, o);
    } else {
      var w := SaveHard(HardState(n.currentTerm + 1, n.cfg.id));
      StandMirrors(n, d);
      ReplayOne(d, w);
      if n.cfg.quorum > 1 {
        n' := o.node;
        DurableMirrors(Standing(n), n', Do(d, w));
        assert o.writes[..j] == [w];
      } else if j == 1 {
        n' := Standing(n);
        assert o.writes[..1] == [w];
      } else {
        n' := o.node;
        BecomeLeaderMirrors(Standing(n), Do(d, w));
        assert o.writes[..j] == [w] + BecomeLeader(Standing(n)).1;
        ReplaySplit(d, [w], BecomeLeader(Standing(n)).1);
      }
    }
  }

  lemma StandMirrors(n: NodeState, d: Disk)
    requires Mirrors(n, d)
    ensures Mirrors(Standing(n), Do(d, SaveHard(HardState(n.currentTerm + 1, n.cfg.id))))
  {
    HardMirrors(n, d, HardState(n.currentTerm + 1, n.cfg.id));
    DurableMirrors(n.(currentTerm := n.currentTerm + 1, votedFor := n.cfg.id), Standing(n),
                   Do(d, SaveHard(HardState(n.currentTerm + 1, n.cfg.id))));
  }

  lemma VoteInTermPointL(n: NodeState, d: Disk, m: Msg, j: nat) returns (n': NodeState)
    requires Mirrors(n, d) && m.VoteReq? && n.entries != [] && j <= |VoteInTerm(n, m).writes|
    ensures Point(n, d, VoteInTerm(n, m), j, n')
  {
    var o := VoteInTerm(n, m);
    if j == 0 {
      n' := StillPoint(n, d, o);
    } else {
      n' := o.node;
      HardMirrors(n, d, HardState(n.currentTerm, m.src));
      ReplayOne(d, o.writes[0]);
      assert o.writes[..j] == [o.writes[0]];
    }
  }

  lemma VotePointL(n: NodeState, d: Disk, m: Msg, calm: bool, j: nat) returns (n': NodeState)
    requires Mirrors(n, d) && m.VoteReq? && n.entries != [] && j <= |OnVote(n, m, calm).writes|
    ensures Point(n, d, OnVote(n, m, calm), j, n')
  {
    if m.term < n.currentTerm || m.preVote || j < |ObserveWrites(n, m.term)| {
      n' := StillPoint(n, d, OnVote(n, m, calm));
    } else {
      var k := |ObserveWrites(n, m.term)|;
      ObserveMirrors(n, d, m.term);
      n' := VoteInTermPointL(Observe(n, m.term), Replay(d, ObserveWrites(n, m.term)), m, j - k);
      AfterPoint(n, Observe(n, m.term), d, m.term, VoteInTerm(Observe(n, m.term), m), j - k, n');
    }
  }

  lemma StepDownPointL(n: NodeState, d: Disk, term: nat, j: nat) returns (n': NodeState)
    requires Mirrors(n, d) && term > n.currentTerm && j <= 1
    ensures Point(n, d, Silent(StepDown(n, term), ObserveWrites(n, term)), j, n')
  {
    if j == 0 {
      n' := StillPoint(n, d, Silent(StepDown(n, term), ObserveWrites(n, term)));
    } else {
      n' := StepDown(n, term);
      ObserveMirrors(n, d, term);
      assert ObserveWrites(n, term)[..j] == ObserveWrites(n, term);
    }
  }

  lemma VoteReplyPointL(n: NodeState, d: Disk, m: Msg, j: nat) returns (n': NodeState)
    requires Mirrors(n, d) && m.VoteReply? && n.entries != [] && j <= |OnVoteReply(n, m).writes|
    ensures Point(n, d, OnVoteReply(n, m), j, n')
  {
    var o := OnVoteReply(n, m);
    if !m.preVote && m.term > n.currentTerm {
      n' := StepDownPointL(n, d, m.term, j);
    } else if j == 0 {
      n' := StillPoint(n, d, o);
    } else {
      n' := o.node;
      var n1 := n.(ballot := Ballot(m.reqTerm, n.ballot.granted + {m.src}, true));
      DurableMirrors(n, n1, d);
      BecomeLeaderMirrors(n1, d);
      assert o.writes[..j] == o.writes;
    }
  }

  lemma ReplyPointL(n: NodeState, d: Disk, m: Msg, j: nat) returns (n': NodeState)
    requires Mirrors(n, d) && (m.AppendReply? || m.SnapReply?) && n.entries != [] && j <= |OnMessage(n, m, true).writes|
    ensures Point(n, d, OnMessage(n, m, true), j, n')
  {
    if m.term > n.currentTerm {
      n' := StepDownPointL(n, d, m.term, j);
    } else {
      n' := StillPoint(n, d, OnMessage(n, m, true));
    }
  }

  // ---- AppendEntries ----

  ghost predicate Slots(es: seq<Entry>, first: nat) {
    forall j :: 0 <= j < |es| ==> es[j].index == first + j
  }

  /** From the end of the log on the merge loop only appends. */
  lemma {:induction false} MergeAppends(entries: seq<Entry>, snap: nat, es: seq<Entry>)
    requires entries != [] && Slots(entries, snap) && Slots(es, snap + |entries|)
    ensures Merge(entries, snap, es) == Merged(entries + es, es, [])
    decreases |es|
  {
    if es == [] {
      assert entries + [] == entries;
    } else {
      MergeAppends(entries + [es[0]], snap, es[1..]);
      assert entries + [es[0]] + es[1..] == entries + es;
      assert [es[0]] + es[1..] == es;
    }
  }

  /** The merge loop keeps the log up to some index and appends contiguous entries from there, with one cut if need be. */
  ghost predicate MergeShape(g: Merged, entries: seq<Entry>, snap: nat) {
    if g.added == [] then g.entries == entries && g.cuts == []
    else
      var a := g.added[0].index;
      && snap < a <= snap + |entries| && Slots(g.added, a) && g.entries == entries[..a - snap] + g.added
      && g.cuts == if a < snap + |entries| then [TruncateSuffix(a)] else []
  }

  lemma {:induction false} MergeShaped(entries: seq<Entry>, snap: nat, es: seq<Entry>, first: nat)
    requires entries != [] && Slots(entries, snap) && Slots(es, first) && first <= snap + |entries|
    ensures MergeShape(Merge(entries, snap, es), entries, snap)
    decreases |es|
  {
    if es != [] {
      var e := es[0];
      if e.index == snap + |entries| {
        MergeAppends(entries, snap, es);
        assert entries[..e.index - snap] == entries;
      } else if e.index > snap && entries[e.index - snap].term != e.term {
        MergeConflict(entries, snap, es);
      } else {
        MergeShaped(entries, snap, es[1..], first + 1);
      }
    }
  }

  /** At the first entry the log has with another term, the log is cut and all the rest is taken. */
  lemma MergeConflict(entries: seq<Entry>, snap: nat, es: seq<Entry>)
    requires entries != [] && Slots(entries, snap) && es != [] && Slots(es, es[0].index) && snap < es[0].index < snap + |entries|
    requires entries[es[0].index - snap].term != es[0].term
    ensures Merge(entries, snap, es) == Merged(entries[..es[0].index - snap] + es, es, [TruncateSuffix(es[0].index)])
  {
    var e, rest := es[0], es[1..];
    var cut := entries[..e.index - snap];
    MergeAppends(cut + [e], snap, rest);
    Reassociate(cut, e, rest);
    assert [e] + rest == es;
  }

  lemma Reassociate(a: seq<Entry>, e: Entry, b: seq<Entry>)
    ensures a + [e] + b == a + ([e] + b)
  {
  }

  /** Storage after the cut, and after the append. */
  lemma MergedMirrors(n: NodeState, d: Disk, g: Merged)
    requires Mirrors(n, d) && n.entries != [] && g.added != [] && MergeShape(g, n.entries, n.snapshotIndex)
    ensures var a := g.added[0].index; var d1 := Replay(d, g.cuts);
      && Mirrors(n.(entries := n.entries[..a - n.snapshotIndex]), d1)
      && Mirrors(n.(entries := g.entries), Do(d1, Append(g.added)))
  {
    var log :| MirrorsBy(n, d, log);
    var snap, a := n.snapshotIndex, g.added[0].index;
    var cut := n.(entries := n.entries[..a - snap]);
    var log1 := log[..a - 1];
    EntriesCut(n.entries, snap, log, a - 1);
    CutOnDisk(d.log, snap, log, a - 1);
    var d1 := Replay(d, g.cuts);
    if a < snap + |n.entries| { ReplayOne(d, TruncateSuffix(a)); } else { assert log1 == log; }
    assert MirrorsBy(cut, d1, log1);
    AppendOnDisk(d1.log, snap, log1, g.added);
    EntriesExtend(cut.entries, snap, log1, g.added);
    assert MirrorsBy(n.(entries := g.entries), Do(d1, Append(g.added)), log1 + g.added);
  }

  lemma EntriesExtend(entries: seq<Entry>, snap: nat, log: Log, es: seq<Entry>)
    requires EntriesRel(entries, snap, log)
    ensures EntriesRel(entries + es, snap, log + es)
  {
  }

  ghost predicate GoodRequest(m: Msg) {
    m.AppendReq? ==> Slots(m.entries, m.prevIndex + 1)
  }

  lemma AcceptPointL(n: NodeState, d: Disk, m: Msg, j: nat) returns (n': NodeState)
    requires Mirrors(n, d) && m.AppendReq? && n.entries != [] && GoodRequest(m) && !PrevMissing(n, m)
    requires j <= |AcceptEntries(n, m).writes|
    ensures Point(n, d, AcceptEntries(n, m), j, n')
  {
    var o := AcceptEntries(n, m);
    var g := Merge(n.entries, n.snapshotIndex, m.entries);
    MirrorsContiguous(n, d);
    MergeShaped(n.entries, n.snapshotIndex, m.entries, m.prevIndex + 1);
    if j == 0 {
      n' := StillPoint(n, d, o);
    } else {
      MergedMirrors(n, d, g);
      var a := g.added[0].index;
      if j < |o.writes| {
        n' := n.(entries := n.entries[..a - n.snapshotIndex]);
        assert o.writes[..j] == g.cuts;
      } else {
        n' := o.node;
        ReplaySplit(d, g.cuts, [Append(g.added)]);
        ReplayOne(Replay(d, g.cuts), Append(g.added));
        assert o.writes[..j] == g.cuts + [Append(g.added)];
        DurableMirrors(n.(entries := g.entries), n', Do(Replay(d, g.cuts), Append(g.added)));
      }
    }
  }

  lemma FollowMirrors(n: NodeState, d: Disk, term: nat, leader: Id)
    requires Mirrors(n, d)
    ensures Mirrors(Follow(n, term, leader), Replay(d, ObserveWrites(n, term)))
    ensures HardStep(HardOf(n), HardOf(Follow(n, term, leader))) && Follow(n, term, leader).cfg == n.cfg
  {
    ObserveMirrors(n, d, term);
    DurableMirrors(Observe(n, term), Follow(n, term, leader), Replay(d, ObserveWrites(n, term)));
  }

  lemma AppendPointL(n: NodeState, d: Disk, m: Msg, j: nat) returns (n': NodeState)
    requires Mirrors(n, d) && m.AppendReq? && n.entries != [] && GoodRequest(m) && j <= |OnAppend(n, m).writes|
    ensures Point(n, d, OnAppend(n, m), j, n')
  {
    if m.term < n.currentTerm || j < |ObserveWrites(n, m.term)| {
      n' := StillPoint(n, d, OnAppend(n, m));
    } else {
      var k, n1 := |ObserveWrites(n, m.term)|, Follow(n, m.term, m.src);
      var d1 := Replay(d, ObserveWrites(n, m.term));
      FollowMirrors(n, d, m.term, m.src);
      if PrevMissing(n1, m) || PrevConflicts(n1, m) {
        n' := StillPoint(n1, d1, AppendAsFollower(n1, m));
      } else {
        n' := AcceptPointL(n1, d1, m, j - k);
      }
      AfterPoint(n, n1, d, m.term, AppendAsFollower(n1, m), j - k, n');
    }
  }

  // ---- Snapshots ----

  /** A log of any entries with the snapshot's last term: what lies under a snapshot is not looked at. */
  function Pad(k: nat, term: nat): Log {
    seq(k, i requires 0 <= i < k => Entry(term, i + 1, NOOP))
  }

  /** The suffix is kept. */
  lemma KeptMirrors(n: NodeState, d: Disk, m: Msg, j: nat)
    requires Mirrors(n, d) && m.SnapReq? && m.lastIndex > n.snapshotIndex && KeepsSuffix(n, m) && 0 < j <= |InstallWrites(n, m)|
    ensures Mirrors(Installed(n, m), Replay(d, InstallWrites(n, m)[..j]))
  {
    var log :| MirrorsBy(n, d, log);
    TermTransparent(n.entries, n.snapshotIndex, log, m.lastIndex);
    SliceTransparent(n, log, m.lastIndex + 1);
    CutEntries(log, m.lastIndex);
    KeepDisk(n, d, m, log, j);
    assert MirrorsBy(Installed(n, m), Replay(d, InstallWrites(n, m)[..j]), log);
  }

  /** The suffix is dropped, and the snapshot saved. */
  lemma DroppedMirrors(n: NodeState, d: Disk, m: Msg, j: nat)
    requires Mirrors(n, d) && m.SnapReq? && m.lastIndex > n.snapshotIndex && !KeepsSuffix(n, m) && 1 < j <= |InstallWrites(n, m)|
    ensures Mirrors(Installed(n, m), Replay(d, InstallWrites(n, m)[..j]))
  {
    var log :| MirrorsBy(n, d, log);
    var ws, log' := InstallWrites(n, m), Pad(m.lastIndex, m.lastTerm);
    var d1 := Do(d, ws[0]);
    CutOnDisk(d.log, n.snapshotIndex, log, n.snapshotIndex);
    InstallOnDisk(n, d1, m, log[..n.snapshotIndex], log');
    ReplayTwo(d, ws[0], ws[1]);
    ReplayThree(d, ws[0], ws[1], ws[2]);
    assert ws[..j] == if j == 2 then [ws[0], ws[1]] else [ws[0], ws[1], ws[2]];
    assert MirrorsBy(Installed(n, m), Replay(d, ws[..j]), log');
  }

  /** The suffix is dropped, the snapshot not yet saved. */
  lemma TornMirrors(n: NodeState, d: Disk)
    requires Mirrors(n, d) && n.entries != []
    ensures Mirrors(n.(entries := n.entries[..1]), Do(d, TruncateSuffix(n.snapshotIndex + 1)))
  {
    var log :| MirrorsBy(n, d, log);
    var snap := n.snapshotIndex;
    EntriesCut(n.entries, snap, log, snap);
    CutOnDisk(d.log, snap, log, snap);
    assert MirrorsBy(n.(entries := n.entries[..1]), Do(d, TruncateSuffix(snap + 1)), log[..snap]);
  }

  lemma InstallPointL(n: NodeState, d: Disk, m: Msg, j: nat) returns (n': NodeState)
    requires Mirrors(n, d) && m.SnapReq? && n.entries != [] && j <= |SnapshotAsFollower(n, m).writes|
    ensures Point(n, d, SnapshotAsFollower(n, m), j, n')
  {
    if j == 0 {
      n' := StillPoint(n, d, SnapshotAsFollower(n, m));
    } else if KeepsSuffix(n, m) {
      n' := Installed(n, m);
      KeptMirrors(n, d, m, j);
    } else if j > 1 {
      n' := Installed(n, m);
      DroppedMirrors(n, d, m, j);
    } else {
      n' := n.(entries := n.entries[..1]);
      TornMirrors(n, d);
      ReplayOne(d, TruncateSuffix(n.snapshotIndex + 1));
      assert InstallWrites(n, m)[..1] == [TruncateSuffix(n.snapshotIndex + 1)];
    }
  }

  lemma SnapPointL(n: NodeState, d: Disk, m: Msg, j: nat) returns (n': NodeState)
    requires Mirrors(n, d) && m.SnapReq? && n.entries != [] && j <= |OnSnapshot(n, m).writes|
    ensures Point(n, d, OnSnapshot(n, m), j, n')
  {
    if m.term < n.currentTerm || j < |ObserveWrites(n, m.term)| {
      n' := StillPoint(n, d, OnSnapshot(n, m));
    } else {
      var k, n1 := |ObserveWrites(n, m.term)|, Follow(n, m.term, m.src);
      FollowMirrors(n, d, m.term, m.src);
      n' := InstallPointL(n1, Replay(d, ObserveWrites(n, m.term)), m, j - k);
      AfterPoint(n, n1, d, m.term, SnapshotAsFollower(n1, m), j - k, n');
    }
  }

  // ---- Applying ----

  lemma ApplyPointL(n: NodeState, d: Disk, j: nat) returns (n': NodeState)
    requires Mirrors(n, d) && Valid(n) && j <= |ApplyReady(n).writes|
    ensures Point(n, d, ApplyReady(n), j, n')
  {
    var o := ApplyReady(n);
    var n1 := ApplyLoop(n).node;
    DurableMirrors(n, n1, d);
    if j == 0 && o.writes != [] {
      n' := n;
    } else if j == 0 {
      n' := o.node;
    } else {
      n' := o.node;
      CompactMirrors(n1, d, j);
    }
  }

  lemma CompactMirrors(n: NodeState, d: Disk, j: nat)
    requires Mirrors(n, d) && ShouldCompact(n) && 0 < j <= |CompactWrites(n)|
    ensures Mirrors(Compacted(n), Replay(d, CompactWrites(n)[..j]))
  {
    var log :| MirrorsBy(n, d, log);
    var ws := CompactWrites(n);
    TermTransparent(n.entries, n.snapshotIndex, log, n.lastApplied);
    SliceTransparent(n, log, n.lastApplied + 1);
    CutEntries(log, n.lastApplied);
    CompactDisk(n, d, log, j);
    assert MirrorsBy(Compacted(n), Replay(d, ws[..j]), log);
  }

  lemma CompactDisk(n: NodeState, d: Disk, log: Log, j: nat)
    requires ShouldCompact(n) && DiskRel(n, d, log) && n.lastApplied <= |log| && 0 < j <= |CompactWrites(n)|
    ensures DiskRel(Compacted(n), Replay(d, CompactWrites(n)[..j]), log)
  {
    var ws := CompactWrites(n);
    CompactOnDisk(d.log, n.snapshotIndex, log, n.lastApplied);
    ReplayOne(d, ws[0]);
    ReplayTwo(d, ws[0], ws[1]);
    assert ws[..j] == if j == 1 then [ws[0]] else [ws[0], ws[1]];
  }

  // ---- Any section ----

  lemma MessagePointL(n: NodeState, d: Disk, m: Msg, calm: bool, j: nat) returns (n': NodeState)
    requires Mirrors(n, d) && n.entries != [] && GoodRequest(m) && j <= |OnMessage(n, m, calm).writes|
    ensures Point(n, d, OnMessage(n, m, calm), j, n')
  {
    match m {
      case VoteReq(_, _, _, _, _, _) => n' := VotePointL(n, d, m, calm, j);
      case VoteReply(_, _, _, _, _, _) => n' := VoteReplyPointL(n, d, m, j);
      case AppendReq(_, _, _, _, _, _, _, _) => n' := AppendPointL(n, d, m, j);
      case AppendReply(_, _, _, _, _, _, _, _, _, _) => n' := ReplyPointL(n, d, m, j);
      case SnapReq(_, _, _, _, _, _) => n' := SnapPointL(n, d, m, j);
      case SnapReply(_, _, _, _, _) => n' := ReplyPointL(n, d, m, j);
    }
  }

  /** Every section, cut short after any of its storage calls, leaves storage that mirrors some node with the vote kept. */
  lemma AnyPoint(n: NodeState, d: Disk, call: Call, j: nat) returns (n': NodeState)
    requires Mirrors(n, d) && CanCall(n, call) && j <= |Handle(n, call).writes| && (call.Receive? ==> GoodRequest(call.m))
    ensures Point(n, d, Handle(n, call), j, n')
  {
    match call {
      case Elect(bid) => n' := ElectPointL(n, d, bid, j);
      case Receive(m, calm) => n' := MessagePointL(n, d, m, calm, j);
      case Submit(payload, wait) => n' := ProposePointL(n, d, payload, wait, j);
      case ApplyCommitted => n' := ApplyPointL(n, d, j);
      case _ => n' := StillPoint(n, d, Handle(n, call));
    }
  }
}
