/**
 The node as the object its locked sections update (internal/raft/node.go and its companions). Every
 method leaves what the function of the same section in Node.dfy says, and makes its storage calls in that order.
 */
module RaftNodes {
  import opened JukeboxTypes
  import opened RaftLog
  import opened Storage
  import opened Node
  import JukeboxSpec
  import opened JukeboxMachine
  import opened MemStorage
  import opened LeadershipCheck
  import opened VoteCount

  lemma {:induction false} AboveNext(es: seq<Entry>, i: nat, index: nat)
    requires i < |es|
    ensures Above(es[..i + 1], index) == Above(es[..i], index) + (if es[i].index > index then [es[i]] else [])
  {
    assert es[..i + 1][..i] == es[..i];
  }

  /** What the apply loop leaves from n on, after it has already applied and answered some. */
  ghost function Onward(n: NodeState, applied: seq<Entry>, answers: set<Answer>): Out
    requires Valid(n)
  {
    var rest := ApplyLoop(n);
    Out(rest.node, [], {}, applied + rest.applied, answers + rest.answers)
  }

  lemma OnwardStep(n: NodeState, applied: seq<Entry>, answers: set<Answer>)
    requires Valid(n) && n.lastApplied < n.commitIndex
    ensures Valid(ApplyOne(n).node)
    ensures Onward(n, applied, answers) == Onward(ApplyOne(n).node, applied + ApplyOne(n).applied, answers + ApplyOne(n).answers)
  {
    var one := ApplyOne(n);
    var rest := ApplyLoop(one.node);
    assert applied + (one.applied + rest.applied) == (applied + one.applied) + rest.applied;
    assert answers + (one.answers + rest.answers) == (answers + one.answers) + rest.answers;
  }

  /** What the merge loop leaves from here on, after it has already appended and cut some. */
  ghost function MergedOn(entries: seq<Entry>, snap: nat, es: seq<Entry>, added: seq<Entry>, cuts: seq<Write>): Merged
    requires entries != []
  {
    var rest := Merge(entries, snap, es);
    Merged(rest.entries, added + rest.added, cuts + rest.cuts)
  }

  /** One turn of the merge loop. */
  lemma MergedOnStep(entries: seq<Entry>, snap: nat, es: seq<Entry>, i: nat, added: seq<Entry>, cuts: seq<Write>)
    requires entries != [] && i < |es|
    ensures var e := es[i]; var g := MergedOn(entries, snap, es[i..], added, cuts); var t := TermIn(entries, snap, e.index);
      && (e.index <= snap || t == Some(e.term) ==> g == MergedOn(entries, snap, es[i + 1..], added, cuts))
      && (e.index > snap && t.None? ==> g == MergedOn(entries + [e], snap, es[i + 1..], added + [e], cuts))
      && (e.index > snap && t.Some? && t.value != e.term ==>
            g == MergedOn(entries[..e.index - snap] + [e], snap, es[i + 1..], added + [e], cuts + [Storage.TruncateSuffix(e.index)]))
  {
    var e, rest := es[i], es[i + 1..];
    assert es[i..][0] == e && es[i..][1..] == rest;
    forall more: seq<Entry> ensures added + ([e] + more) == (added + [e]) + more { }
    var w := Storage.TruncateSuffix(e.index);
    forall more: seq<Write> ensures cuts + ([w] + more) == (cuts + [w]) + more { }
  }

  class RaftNode {
    const cfg: Config
    const storage: MemStore
    const machine: Jukebox

    var currentTerm: nat
    var votedFor: Id
    var entries: seq<Entry>
    var snapshotIndex: nat
    var snapshotTerm: nat
    var snapshotData: Option<JukeState>

    var role: Role
    var leaderId: Id
    var commitIndex: nat
    var lastApplied: nat
    var nextIndex: map<Id, nat>
    var matchIndex: map<Id, nat>
    var pending: map<nat, Waiter>

    // The counters shared by an election's vote requests, and the arguments of campaigns under way.
    var ballot: Ballot
    var bids: set<Bid>

    function View(): NodeState
      reads this, machine
    {
      NodeState(cfg, currentTerm, votedFor, entries, snapshotIndex, snapshotTerm, snapshotData,
                role, leaderId, commitIndex, lastApplied, nextIndex, matchIndex, pending, machine.State(), ballot, bids)
    }

    ghost predicate Sound()
      reads this, storage
    {
      entries != [] && storage.Valid()
    }

    // ---- Start-up ----

    /** New, with loadFromStorage. */
    constructor (cfg: Config, storage: MemStore, machine: Jukebox)
      requires storage.Valid() && machine.State() == JukeboxSpec.INITIAL
      modifies machine
      ensures Sound() && this.cfg == cfg && this.storage == storage && this.machine == machine
      ensures View() == Load(cfg, storage.Content())
    {
      this.cfg, this.storage, this.machine := cfg, storage, machine;
      role, leaderId := Follower, "";
      nextIndex, matchIndex, pending := map[], map[], map[];
      ballot, bids := NoBallot, {};

      var hard := storage.LoadHardState();
      currentTerm, votedFor := hard.term, hard.votedFor;
      var snap := storage.LoadSnapshot();
      snapshotIndex, snapshotTerm, snapshotData := snap.lastIndex, snap.lastTerm, snap.data;
      machine.Restore(snap.data);
      var persisted := storage.AllEntries();
      var kept := [Sentinel(snap.lastIndex, snap.lastTerm)];
      var i := 0;
      while i < |persisted|
        invariant 0 <= i <= |persisted|
        invariant kept == [Sentinel(snap.lastIndex, snap.lastTerm)] + Above(persisted[..i], snap.lastIndex)
        invariant machine.State() == JukeboxSpec.Restored(JukeboxSpec.INITIAL, snap.data)
      {
        AboveNext(persisted, i, snap.lastIndex);
        if persisted[i].index > snap.lastIndex {
          kept := kept + [persisted[i]];
        }
        i := i + 1;
      }
      assert persisted[..i] == persisted;
      entries := kept;
      commitIndex, lastApplied := snap.lastIndex, snap.lastIndex;
    }

    // ---- Log helpers ----

    method TermAt(index: nat) returns (term: nat, ok: bool)
      ensures TermOf(View(), index) == if ok then Some(term) else None
      ensures !ok ==> term == 0
    {
      if index < snapshotIndex {
        return 0, false;
      }
      var off := index - snapshotIndex;
      if off >= |entries| {
        return 0, false;
      }
      return entries[off].term, true;
    }

    method SliceOf(from: nat) returns (out: seq<Entry>)
      ensures out == SliceFrom(View(), from)
    {
      var start := from;
      if start <= snapshotIndex {
        start := snapshotIndex + 1;
      }
      var off := start - snapshotIndex;
      if off >= |entries| {
        return [];
      }
      return entries[off..];
    }

    method FirstOfTerm(term: nat) returns (index: nat)
      ensures index == FirstIndexOfTerm(entries, term, snapshotIndex + 1)
    {
      var i := 0;
      while i < |entries|
        invariant 0 <= i <= |entries|
        invariant FirstIndexOfTerm(entries[i..], term, snapshotIndex + 1) == FirstIndexOfTerm(entries, term, snapshotIndex + 1)
      {
        if entries[i].term == term {
          return entries[i].index;
        }
        assert entries[i..][1..] == entries[i + 1..];
        i := i + 1;
      }
      return snapshotIndex + 1;
    }

    // ---- Terms and roles ----

    method PersistHardState()
      requires storage.Valid()
      modifies storage
      ensures storage.Valid() && storage.calls == old(storage.calls) + [SaveHard(HardState(currentTerm, votedFor))]
    {
      storage.SaveHardState(HardState(currentTerm, votedFor));
    }

    /** Every waiter is failed and forgotten. */
    method FailPending()
      modifies this`pending
      ensures pending == map[]
    {
      while pending != map[]
        decreases |pending.Keys|
      {
        var idx :| idx in pending;
        var rest := pending - {idx};
        assert rest.Keys == pending.Keys - {idx};
        assert pending.Keys == rest.Keys + {idx};
        pending := rest;
      }
    }

    method StepDown(term: nat)
      requires Sound() && term > currentTerm
      modifies this, storage
      ensures Sound() && View() == Node.StepDown(old(View()), term)
      ensures storage.calls == old(storage.calls) + ObserveWrites(old(View()), term)
    {
      EnterTerm(term);
      role := Follower;
      FailPending();
    }

    method EnterTerm(term: nat)
      requires Sound()
      modifies this`currentTerm, this`votedFor, storage
      ensures Sound() && View() == old(View()).(currentTerm := term, votedFor := "")
      ensures storage.calls == old(storage.calls) + [SaveHard(HardState(term, ""))]
    {
      currentTerm, votedFor := term, "";
      PersistHardState();
    }

    // ---- Commit ----

    /** The downward search for the highest own-term index that a quorum holds. */
    method AdvanceCommit()
      requires entries != []
      modifies this`commitIndex
      ensures View() == Node.AdvanceCommit(old(View()))
    {
      ghost var n := View();
      var idx: nat := entries[|entries| - 1].index;
      while idx > commitIndex
        invariant View() == n
        invariant CommitSearch(n, idx) == CommitSearch(n, LastIndex(n))
      {
        var term, ok := TermAt(idx);
        if ok && term == currentTerm {
          var count := CountHolders(idx);
          if count >= cfg.quorum {
            commitIndex := idx;
            return;
          }
        }
        idx := idx - 1;
      }
    }

    method CountHolders(idx: nat) returns (count: nat)
      ensures count == 1 + CountMatching(cfg.peers, matchIndex, idx)
    {
      count := 1;
      var i := 0;
      while i < |cfg.peers|
        invariant 0 <= i <= |cfg.peers|
        invariant count == 1 + CountMatching(cfg.peers[..i], matchIndex, idx)
      {
        assert cfg.peers[..i + 1][..i] == cfg.peers[..i];
        if Get(matchIndex, cfg.peers[i]) >= idx {
          count := count + 1;
        }
        i := i + 1;
      }
      assert cfg.peers[..i] == cfg.peers;
    }

    // ---- AppendEntries ----

    /** The merge loop; what it appends is persisted by its caller. */
    method MergeEntries(es: seq<Entry>) returns (toPersist: seq<Entry>)
      requires Sound()
      modifies this`entries, storage
      ensures Sound()
      ensures var g := Merge(old(entries), snapshotIndex, es);
        entries == g.entries && toPersist == g.added && storage.calls == old(storage.calls) + g.cuts
    {
      ghost var g := Merge(entries, snapshotIndex, es);
      ghost var cuts: seq<Write> := [];
      toPersist := [];
      var i := 0;
      while i < |es|
        invariant 0 <= i <= |es| && Sound()
        invariant storage.calls == old(storage.calls) + cuts
        invariant g == MergedOn(entries, snapshotIndex, es[i..], toPersist, cuts)
      {
        var e := es[i];
        MergedOnStep(entries, snapshotIndex, es, i, toPersist, cuts);
        if e.index > snapshotIndex {
          var existing, ok := TermAt(e.index);
          if !ok || existing != e.term {
            if ok {
              entries := entries[..e.index - snapshotIndex];
              storage.TruncateSuffix(e.index);
              cuts := cuts + [Storage.TruncateSuffix(e.index)];
            }
            entries := entries + [e];
            toPersist := toPersist + [e];
          }
        }
        i := i + 1;
      }
    }

    /** The request's checks and effects once its sender is this node's leader. */
    method AppendFollowing(m: Msg) returns (reply: Msg)
      requires Sound() && m.AppendReq?
      modifies this, storage
      ensures Sound()
      ensures var o := AppendAsFollower(old(View()), m);
        View() == o.node && o.sends == {reply} && storage.calls == old(storage.calls) + o.writes
    {
      var last := entries[|entries| - 1].index;
      if m.prevIndex > last {
        return AppendReply(cfg.id, m.src, m.rid, m.term, m.prevIndex, |m.entries|, currentTerm, false, last + 1, 0);
      }
      if m.prevIndex >= snapshotIndex {
        var t, ok := TermAt(m.prevIndex);
        if !ok || t != m.prevTerm {
          var first := FirstOfTerm(t);
          return AppendReply(cfg.id, m.src, m.rid, m.term, m.prevIndex, |m.entries|, currentTerm, false, first, t);
        }
      }
      var toPersist := MergeEntries(m.entries);
      if |toPersist| > 0 {
        storage.Append(toPersist);
      }
      FollowCommit(m.leaderCommit);
      return AppendReply(cfg.id, m.src, m.rid, m.term, m.prevIndex, |m.entries|, currentTerm, true, 0, 0);
    }

    method FollowCommit(leaderCommit: nat)
      requires entries != []
      modifies this`commitIndex
      ensures View() == old(View()).(commitIndex := FollowerCommit(old(View()), leaderCommit))
    {
      if leaderCommit > commitIndex {
        commitIndex := Min(leaderCommit, entries[|entries| - 1].index);
      }
    }

    method AppendEntries(m: Msg) returns (reply: Msg)
      requires Sound() && m.AppendReq?
      modifies this, storage
      ensures Sound()
      ensures var o := OnAppend(old(View()), m);
        View() == o.node && o.sends == {reply} && storage.calls == old(storage.calls) + o.writes
    {
      if m.term < currentTerm {
        return AppendReply(cfg.id, m.src, m.rid, m.term, m.prevIndex, |m.entries|, currentTerm, false, 0, 0);
      }
      if m.term > currentTerm {
        StepDown(m.term);
      }
      role, leaderId := Follower, m.src;
      reply := AppendFollowing(m);
    }

    // ---- Replies to a leader ----

    /** Where to resume after a rejection. */
    method NextIndexAfterConflict(conflictIndex: nat, conflictTerm: nat) returns (next: nat)
      ensures next == NextAfterConflict(View(), conflictIndex, conflictTerm)
    {
      if conflictTerm == 0 {
        if conflictIndex == 0 {
          return 1;
        }
        return conflictIndex;
      }
      var last := 0;
      var i := 0;
      while i < |entries|
        invariant 0 <= i <= |entries| && last == LastOfTerm(entries[..i], conflictTerm)
      {
        assert entries[..i + 1][..i] == entries[..i];
        if entries[i].term == conflictTerm {
          last := entries[i].index;
        }
        i := i + 1;
      }
      assert entries[..i] == entries;
      if last > 0 {
        return last + 1;
      }
      return conflictIndex;
    }

    method HandleAppendReply(m: Msg)
      requires Sound() && m.AppendReply?
      modifies this, storage
      ensures Sound()
      ensures var o := OnAppendReply(old(View()), m);
        View() == o.node && storage.calls == old(storage.calls) + o.writes
    {
      if m.term > currentTerm {
        StepDown(m.term);
        return;
      }
      if role != Leader || currentTerm != m.reqTerm {
        return;
      }
      if m.success {
        var newMatch := m.prevIndex + m.count;
        if newMatch > Get(matchIndex, m.src) {
          matchIndex := matchIndex[m.src := newMatch];
          nextIndex := nextIndex[m.src := newMatch + 1];
          AdvanceCommit();
        }
        return;
      }
      var next := NextIndexAfterConflict(m.conflictIndex, m.conflictTerm);
      nextIndex := nextIndex[m.src := next];
      if nextIndex[m.src] < 1 {
        nextIndex := nextIndex[m.src := 1];
      }
    }

    method HandleSnapReply(m: Msg)
      requires Sound() && m.SnapReply?
      modifies this, storage
      ensures Sound()
      ensures var o := OnSnapReply(old(View()), m);
        View() == o.node && storage.calls == old(storage.calls) + o.writes
    {
      if m.term > currentTerm {
        StepDown(m.term);
        return;
      }
      if role != Leader || currentTerm != m.reqTerm {
        return;
      }
      if m.lastIndex > Get(matchIndex, m.src) {
        matchIndex := matchIndex[m.src := m.lastIndex];
        nextIndex := nextIndex[m.src := m.lastIndex + 1];
      }
    }

    // ---- Elections ----

    method BeginCampaign()
      requires entries != []
      modifies this
      ensures View() == Node.BeginCampaign(old(View()))
    {
      role, leaderId := Candidate, "";
      bids := bids + {Bid(currentTerm, entries[|entries| - 1].index, entries[|entries| - 1].term)};
    }

    method BecomeLeader()
      requires Sound()
      modifies this, storage
      ensures Sound()
      ensures View() == Node.BecomeLeader(old(View())).0
      ensures storage.calls == old(storage.calls) + Node.BecomeLeader(old(View())).1
    {
      if role == Leader {
        return;
      }
      var noop := Entry(currentTerm, entries[|entries| - 1].index + 1, NOOP);
      TakeOffice(noop);
      storage.Append([noop]);
      AdvanceCommit();
    }

    /** The leader's role, bookkeeping and first entry, before it is persisted and counted. */
    method TakeOffice(noop: Entry)
      modifies this
      ensures View() == old(View()).(role := Leader, leaderId := cfg.id,
        nextIndex := map p | p in cfg.peers :: noop.index, matchIndex := map p | p in cfg.peers :: 0,
        entries := old(entries) + [noop])
    {
      role, leaderId := Leader, cfg.id;
      ResetPeers(noop.index);
      entries := entries + [noop];
    }

    method ResetPeers(next: nat)
      modifies this`nextIndex, this`matchIndex
      ensures nextIndex == map p | p in cfg.peers :: next
      ensures matchIndex == map p | p in cfg.peers :: 0
    {
      nextIndex, matchIndex := map[], map[];
      var i := 0;
      while i < |cfg.peers|
        invariant 0 <= i <= |cfg.peers|
        invariant nextIndex == map p | p in cfg.peers[..i] :: next
        invariant matchIndex == map p | p in cfg.peers[..i] :: 0
      {
        nextIndex := nextIndex[cfg.peers[i] := next];
        matchIndex := matchIndex[cfg.peers[i] := 0];
        i := i + 1;
      }
      assert cfg.peers[..i] == cfg.peers;
    }

    /** Counts the answers to a round of pre-votes, the node's own included; an answer changes nothing here. */
    method GatherPreVotes(replies: seq<Option<Msg>>) returns (won: bool)
      requires forall i :: 0 <= i < |replies| ==> replies[i].Some? ==> replies[i].value.VoteReply?
      ensures won <==> 1 + |Grants(replies)| >= cfg.quorum
    {
      var granted := 1;
      var i := 0;
      while i < |replies|
        invariant 0 <= i <= |replies| && granted == 1 + |Grants(replies[..i])|
      {
        GrantsLast(replies, i);
        if replies[i].Some? && replies[i].value.granted {
          granted := granted + 1;
        }
        i := i + 1;
      }
      assert replies[..i] == replies;
      won := granted >= cfg.quorum;
    }

    /** The real election; the vote requests it returns go to every peer. */
    method StartRealElection(bid: Bid) returns (requests: set<Msg>)
      requires Sound()
      modifies this, storage
      ensures Sound()
      ensures var o := StartElection(old(View()), bid);
        View() == o.node && requests == o.sends && storage.calls == old(storage.calls) + o.writes
    {
      StandForTerm();
      if cfg.quorum <= 1 {
        BecomeLeader();
        return {};
      }
      ballot := Ballot(currentTerm, {cfg.id}, false);
      requests := VoteReqs(View(), bid);
    }

    method StandForTerm()
      requires Sound()
      modifies this, storage
      ensures Sound() && View() == old(View()).(currentTerm := old(currentTerm) + 1, role := Candidate, votedFor := cfg.id, leaderId := "")
      ensures storage.calls == old(storage.calls) + [SaveHard(HardState(currentTerm, votedFor))]
    {
      currentTerm := currentTerm + 1;
      role, votedFor, leaderId := Candidate, cfg.id, "";
      PersistHardState();
    }

    method CandidateIsUpToDate(lastIndex: nat, lastTerm: nat) returns (ok: bool)
      requires entries != []
      ensures ok == CandidateUpToDate(View(), lastIndex, lastTerm)
    {
      var myLastTerm, myLastIndex := entries[|entries| - 1].term, entries[|entries| - 1].index;
      if lastTerm != myLastTerm {
        return lastTerm > myLastTerm;
      }
      return lastIndex >= myLastIndex;
    }

    method RequestVote(m: Msg, calm: bool) returns (reply: Msg)
      requires Sound() && m.VoteReq?
      modifies this, storage
      ensures Sound()
      ensures var o := OnVote(old(View()), m, calm);
        View() == o.node && o.sends == {reply} && storage.calls == old(storage.calls) + o.writes
    {
      if m.term < currentTerm {
        return VoteReply(cfg.id, m.src, m.term, m.preVote, currentTerm, false);
      }
      if m.preVote {
        var upToDate := CandidateIsUpToDate(m.lastIndex, m.lastTerm);
        return VoteReply(cfg.id, m.src, m.term, true, currentTerm, upToDate && calm);
      }
      if m.term > currentTerm {
        StepDown(m.term);
      }
      var upToDate := CandidateIsUpToDate(m.lastIndex, m.lastTerm);
      if (votedFor == "" || votedFor == m.src) && upToDate {
        votedFor := m.src;
        PersistHardState();
        return VoteReply(cfg.id, m.src, m.term, false, currentTerm, true);
      }
      return VoteReply(cfg.id, m.src, m.term, false, currentTerm, false);
    }

    method HandleVoteReply(m: Msg)
      requires Sound() && m.VoteReply?
      modifies this, storage
      ensures Sound()
      ensures var o := OnVoteReply(old(View()), m);
        View() == o.node && storage.calls == old(storage.calls) + o.writes
    {
      if m.preVote {
        return;
      }
      if m.term > currentTerm {
        StepDown(m.term);
        return;
      }
      if role != Candidate || currentTerm != m.reqTerm || ballot.NoBallot? || ballot.term != m.reqTerm {
        return;
      }
      if m.granted {
        ballot := ballot.(granted := ballot.granted + {m.src});
        var reachedQuorum := |ballot.granted| >= cfg.quorum && !ballot.won;
        if reachedQuorum {
          ballot := ballot.(won := true);
          BecomeLeader();
        }
      }
    }

    // ---- Snapshots ----

    method MaybeSnapshot()
      requires Sound()
      modifies this, storage
      ensures Sound()
      ensures var n := old(View());
        if ShouldCompact(n) then View() == Compacted(n) && storage.calls == old(storage.calls) + CompactWrites(n)
        else View() == n && storage.calls == old(storage.calls)
    {
      if cfg.snapshotThreshold <= 0 || |entries| - 1 <= cfg.snapshotThreshold || lastApplied <= snapshotIndex {
        return;
      }
      var snapIndex := lastApplied;
      var snapTerm, ok := TermAt(snapIndex);
      if !ok {
        return;
      }
      var data := machine.Snapshot();
      SaveCompaction(Snapshot(snapIndex, snapTerm, Some(data)));
      var kept := SliceOf(snapIndex + 1);
      Rebase(Snapshot(snapIndex, snapTerm, Some(data)), kept);
    }

    method SaveCompaction(snap: Snapshot)
      requires storage.Valid()
      modifies storage
      ensures storage.Valid() && storage.calls == old(storage.calls) + [SaveSnap(snap), Storage.TruncatePrefix(snap.lastIndex)]
    {
      storage.SaveSnapshot(snap);
      storage.TruncatePrefix(snap.lastIndex);
    }

    /** The log restarts at a snapshot boundary. */
    method Rebase(snap: Snapshot, kept: seq<Entry>)
      modifies this`entries, this`snapshotIndex, this`snapshotTerm, this`snapshotData
      ensures View() == old(View()).(entries := [Sentinel(snap.lastIndex, snap.lastTerm)] + kept,
        snapshotIndex := snap.lastIndex, snapshotTerm := snap.lastTerm, snapshotData := snap.data)
    {
      entries := [Sentinel(snap.lastIndex, snap.lastTerm)] + kept;
      snapshotIndex, snapshotTerm, snapshotData := snap.lastIndex, snap.lastTerm, snap.data;
    }

    /** The suffix to keep; a log that conflicts with the snapshot loses its suffix in storage. */
    method KeptSuffix(m: Msg) returns (kept: seq<Entry>)
      requires storage.Valid() && m.SnapReq?
      modifies storage
      ensures storage.Valid() && kept == if KeepsSuffix(View(), m) then SliceFrom(View(), m.lastIndex + 1) else []
      ensures storage.calls == old(storage.calls) + (if KeepsSuffix(View(), m) then [] else [Storage.TruncateSuffix(snapshotIndex + 1)])
    {
      kept := [];
      var t, ok := TermAt(m.lastIndex);
      if ok && t == m.lastTerm {
        kept := SliceOf(m.lastIndex + 1);
      } else {
        storage.TruncateSuffix(snapshotIndex + 1);
      }
    }

    method RaiseCursors(index: nat)
      modifies this`commitIndex, this`lastApplied
      ensures View() == old(View()).(commitIndex := if index > old(commitIndex) then index else old(commitIndex),
                                     lastApplied := if index > old(lastApplied) then index else old(lastApplied))
    {
      if index > commitIndex {
        commitIndex := index;
      }
      if index > lastApplied {
        lastApplied := index;
      }
    }

    /** A snapshot's effects once its sender is this node's leader and it is not covered already. */
    method Install(m: Msg)
      requires Sound() && m.SnapReq? && m.lastIndex > snapshotIndex
      modifies this, storage, machine
      ensures Sound() && View() == Installed(old(View()), m)
      ensures storage.calls == old(storage.calls) + InstallWrites(old(View()), m)
    {
      machine.Restore(m.data);
      var kept := KeptSuffix(m);
      SaveCompaction(Snapshot(m.lastIndex, m.lastTerm, m.data));
      Rebase(Snapshot(m.lastIndex, m.lastTerm, m.data), kept);
      RaiseCursors(m.lastIndex);
    }

    method InstallSnapshot(m: Msg) returns (reply: Msg)
      requires Sound() && m.SnapReq?
      modifies this, storage, machine
      ensures Sound()
      ensures var o := OnSnapshot(old(View()), m);
        View() == o.node && o.sends == {reply} && storage.calls == old(storage.calls) + o.writes
    {
      if m.term < currentTerm {
        return SnapReply(cfg.id, m.src, m.term, m.lastIndex, currentTerm);
      }
      if m.term > currentTerm {
        StepDown(m.term);
      }
      role, leaderId := Follower, m.src;
      reply := SnapReply(cfg.id, m.src, m.term, m.lastIndex, currentTerm);
      if m.lastIndex <= snapshotIndex {
        return;
      }
      Install(m);
    }

    // ---- Applying and proposing ----

    /** One turn of the apply loop. */
    method ApplyNext() returns (applied: seq<Entry>, answers: set<Answer>)
      requires Valid(View()) && lastApplied < commitIndex
      modifies this, machine
      ensures var o := ApplyOne(old(View())); View() == o.node && applied == o.applied && answers == o.answers
    {
      lastApplied := lastApplied + 1;
      if lastApplied <= snapshotIndex {
        return [], {};
      }
      var e := entries[lastApplied - snapshotIndex];
      var result := machine.Apply(e.payload);
      applied := [e];
      answers := TellWaiter(e, result);
    }

    /** The waiter at an applied index, if any, is told and forgotten. */
    method TellWaiter(e: Entry, result: Result) returns (answers: set<Answer>)
      modifies this`pending
      ensures View() == old(View()).(pending := old(pending) - {lastApplied})
      ensures answers == if lastApplied in old(pending) && old(pending)[lastApplied].term == e.term
        then {Answer(cfg.id, lastApplied, e.term, old(pending)[lastApplied].payload, result)} else {}
    {
      answers := {};
      if lastApplied in pending && pending[lastApplied].term == e.term {
        answers := {Answer(cfg.id, lastApplied, e.term, pending[lastApplied].payload, result)};
      }
      pending := pending - {lastApplied};
    }

    /** Applies every committed entry, in order, and then may compact. */
    method ApplyReady() returns (applied: seq<Entry>, answers: set<Answer>)
      requires Sound() && Valid(View())
      modifies this, storage, machine
      ensures Sound()
      ensures var o := Node.ApplyReady(old(View()));
        View() == o.node && applied == o.applied && answers == o.answers && storage.calls == old(storage.calls) + o.writes
    {
      applied, answers := ApplyAll();
      MaybeSnapshot();
    }

    method ApplyAll() returns (applied: seq<Entry>, answers: set<Answer>)
      requires Valid(View())
      modifies this, machine
      ensures var o := ApplyLoop(old(View())); View() == o.node && applied == o.applied && answers == o.answers
    {
      ghost var all := ApplyLoop(View());
      applied, answers := [], {};
      while lastApplied < commitIndex
        invariant Valid(View())
        invariant all == Onward(View(), applied, answers)
        decreases commitIndex - lastApplied
      {
        OnwardStep(View(), applied, answers);
        var one, told := ApplyNext();
        applied, answers := applied + one, answers + told;
      }
    }

    /** Appends a command to the leader's log, with a waiter for its result if asked. */
    method Propose(payload: Payload, wait: bool) returns (index: nat, term: nat, isLeader: bool)
      requires Sound()
      modifies this, storage
      ensures Sound() && isLeader == (old(role) == Leader)
      ensures !isLeader ==> View() == old(View()) && storage.calls == old(storage.calls)
      ensures isLeader ==>
        var o := ProposeEntry(old(View()), payload, wait);
        View() == o.node && storage.calls == old(storage.calls) + o.writes && o.writes == [Append([Entry(term, index, payload)])]
    {
      if role != Leader {
        return 0, 0, false;
      }
      var e := Entry(currentTerm, entries[|entries| - 1].index + 1, payload);
      entries := entries + [e];
      storage.Append([e]);
      if wait {
        pending := pending[e.index := Waiter(e.term, payload)];
      }
      AdvanceCommit();
      return e.index, e.term, true;
    }

    // ---- Sending ----

    /** The request for a peer: what follows its nextIndex, or the snapshot when that is compacted away. */
    method BuildRequest(peer: Id, rid: nat) returns (m: Option<Msg>)
      requires peer in cfg.peers
      ensures role != Leader ==> m == None
      ensures role == Leader ==>
        m == Some(if CanReplicate(View(), peer) then ReplicateTo(View(), peer, rid) else SnapshotTo(View(), peer))
    {
      if role != Leader {
        return None;
      }
      var ni := Get(nextIndex, peer);
      if ni <= snapshotIndex {
        return Some(SnapReq(cfg.id, peer, currentTerm, snapshotIndex, snapshotTerm, snapshotData));
      }
      var prevTerm, ok := TermAt(ni - 1);
      if !ok {
        return Some(SnapReq(cfg.id, peer, currentTerm, snapshotIndex, snapshotTerm, snapshotData));
      }
      var es := SliceOf(ni);
      return Some(AppendReq(cfg.id, peer, rid, currentTerm, ni - 1, prevTerm, es, commitIndex));
    }

    /** The leadership check's empty request. */
    method BuildConfirmation(peer: Id, rid: nat, commit: nat) returns (m: Msg)
      ensures m == ConfirmTo(View(), peer, rid, commit)
    {
      var ni := Get(nextIndex, peer);
      if ni == 0 {
        return AppendReq(cfg.id, peer, rid, currentTerm, 0, 0, [], commit);
      }
      var prevTerm, ok := TermAt(ni - 1);
      if !ok {
        return AppendReq(cfg.id, peer, rid, currentTerm, 0, 0, [], commit);
      }
      return AppendReq(cfg.id, peer, rid, currentTerm, ni - 1, prevTerm, [], commit);
    }

    // ---- Reads ----

    /** The index and term a read starts from. */
    method BeginRead() returns (ok: bool, readIndex: nat, term: nat)
      ensures ok == (role == Leader) && (ok ==> readIndex == commitIndex && term == currentTerm)
    {
      if role != Leader {
        return false, 0, 0;
      }
      return true, commitIndex, currentTerm;
    }

    /** Counts the answers to the leadership check, one per peer that answered; a higher term deposes this node. */
    method CountConfirmations(term: nat, replies: seq<Option<Msg>>) returns (ok: bool)
      requires Sound() && forall i :: 0 <= i < |replies| ==> replies[i].Some? ==> replies[i].value.AppendReply?
      modifies this, storage
      ensures Sound() && ok == (1 + |Successes(replies, term)| >= cfg.quorum)
      ensures View() == Deposed(old(View()), replies, term)
      ensures storage.calls == old(storage.calls) + DeposedWrites(old(View()), replies, term)
    {
      var acks := 1;
      var i := 0;
      while i < |replies|
        invariant 0 <= i <= |replies| && Sound() && acks == 1 + AckCount(replies[..i], term)
        invariant View() == Deposed(old(View()), replies[..i], term)
        invariant storage.calls == old(storage.calls) + DeposedWrites(old(View()), replies[..i], term)
      {
        assert replies[..i + 1][..i] == replies[..i];
        if replies[i].Some? {
          var r := replies[i].value;
          if r.term > term {
            if r.term > currentTerm {
              StepDown(r.term);
            }
          } else if r.success {
            acks := acks + 1;
          }
        }
        i := i + 1;
      }
      assert replies[..i] == replies;
      AckCountExact(replies, term);
      ok := acks >= cfg.quorum;
    }
  }
}
