/**
 One Raft node as a value, and each of its locked sections as a function from the
 node to what that section leaves behind: the new node, the storage calls in the order
 they are made, and what is sent, applied and answered (internal/raft).
 */
module Node {
  import opened JukeboxTypes
  import opened JukeboxSpec
  import opened RaftLog
  import opened Storage

  datatype Role = Follower | Candidate | Leader

  /** A campaign begun in term `base`, with the last index and term its votes will be asked for. */
  datatype Bid = Bid(base: nat, lastIndex: nat, lastTerm: nat)

  /** The tally of one real election. */
  datatype Ballot = NoBallot | Ballot(term: nat, granted: set<Id>, won: bool)

  datatype Waiter = Waiter(term: nat, payload: Payload)

  datatype Answer = Answer(node: Id, index: nat, term: nat, payload: Payload, result: Result)

  /** `peers` excludes the node itself. */
  datatype Config = Config(id: Id, peers: seq<Id>, quorum: nat, snapshotThreshold: int)

  datatype NodeState = NodeState(
    cfg: Config,
    currentTerm: nat, votedFor: Id,
    entries: seq<Entry>, snapshotIndex: nat, snapshotTerm: nat, snapshotData: Option<JukeState>,
    role: Role, leaderId: Id, commitIndex: nat, lastApplied: nat,
    nextIndex: map<Id, nat>, matchIndex: map<Id, nat>,
    pending: map<nat, Waiter>, machine: JukeState,
    ballot: Ballot, bids: set<Bid>)

  /** Messages; a reply carries what the waiting caller remembers of its request. */
  datatype Msg =
    | VoteReq(src: Id, dst: Id, term: nat, lastIndex: nat, lastTerm: nat, preVote: bool)
    | VoteReply(src: Id, dst: Id, reqTerm: nat, preVote: bool, term: nat, granted: bool)
    | AppendReq(src: Id, dst: Id, rid: nat, term: nat, prevIndex: nat, prevTerm: nat, entries: seq<Entry>, leaderCommit: nat)
    | AppendReply(src: Id, dst: Id, rid: nat, reqTerm: nat, prevIndex: nat, count: nat,
                  term: nat, success: bool, conflictIndex: nat, conflictTerm: nat)
    | SnapReq(src: Id, dst: Id, term: nat, lastIndex: nat, lastTerm: nat, data: Option<JukeState>)
    | SnapReply(src: Id, dst: Id, reqTerm: nat, lastIndex: nat, term: nat)

  datatype Out = Out(node: NodeState, writes: seq<Write>, sends: set<Msg>, applied: seq<Entry>, answers: set<Answer>)

  function Silent(n: NodeState, writes: seq<Write>): Out {
    Out(n, writes, {}, [], {})
  }

  function Min(a: nat, b: nat): nat {
    if a < b then a else b
  }

  /** A Go map read: a missing key reads as zero. */
  function Get(m: map<Id, nat>, p: Id): nat {
    if p in m then m[p] else 0
  }

  /** The boundary entry in front of the log. */
  function Sentinel(index: nat, term: nat): Entry {
    Entry(term, index, Malformed(""))
  }

  /** Entries are contiguous from the snapshot boundary. */
  predicate Contiguous(n: NodeState) {
    && n.entries != []
    && (forall j :: 0 <= j < |n.entries| ==> n.entries[j].index == n.snapshotIndex + j)
  }

  /** The log is contiguous and the cursors are in range. */
  predicate Valid(n: NodeState) {
    Contiguous(n) && n.lastApplied <= n.commitIndex <= n.snapshotIndex + |n.entries| - 1
  }

  // ---- Log helpers ----

  function LastIndex(n: NodeState): nat
    requires n.entries != []
  {
    n.entries[|n.entries| - 1].index
  }

  function LastTermOf(n: NodeState): nat
    requires n.entries != []
  {
    n.entries[|n.entries| - 1].term
  }

  function TermIn(entries: seq<Entry>, snapshotIndex: nat, index: nat): Option<nat> {
    if index < snapshotIndex || index - snapshotIndex >= |entries| then None
    else Some(entries[index - snapshotIndex].term)
  }

  function TermOf(n: NodeState, index: nat): Option<nat> {
    TermIn(n.entries, n.snapshotIndex, index)
  }

  function SliceFrom(n: NodeState, from: nat): seq<Entry> {
    var start := if from <= n.snapshotIndex then n.snapshotIndex + 1 else from;
    if start - n.snapshotIndex >= |n.entries| then [] else n.entries[start - n.snapshotIndex..]
  }

  function FirstIndexOfTerm(entries: seq<Entry>, term: nat, default: nat): nat {
    if entries == [] then default
    else if entries[0].term == term then entries[0].index
    else FirstIndexOfTerm(entries[1..], term, default)
  }

  /** The index of the last entry of a term, 0 if there is none. */
  function LastOfTerm(entries: seq<Entry>, term: nat): nat {
    if entries == [] then 0
    else if entries[|entries| - 1].term == term then entries[|entries| - 1].index
    else LastOfTerm(entries[..|entries| - 1], term)
  }

  // ---- Terms and roles ----

  function StepDown(n: NodeState, term: nat): NodeState
    requires term > n.currentTerm
  {
    n.(currentTerm := term, votedFor := "", role := Follower, pending := map[])
  }

  function Observe(n: NodeState, term: nat): NodeState {
    if term > n.currentTerm then StepDown(n, term) else n
  }

  function ObserveWrites(n: NodeState, term: nat): seq<Write> {
    if term > n.currentTerm then [SaveHard(HardState(term, ""))] else []
  }

  // ---- Commit ----

  function CountMatching(peers: seq<Id>, matchIndex: map<Id, nat>, k: nat): nat {
    if peers == [] then 0
    else CountMatching(peers[..|peers| - 1], matchIndex, k) + (if Get(matchIndex, peers[|peers| - 1]) >= k then 1 else 0)
  }

  /** The leader may count index k as committed: an entry of its own term held by a quorum. */
  predicate Countable(n: NodeState, k: nat) {
    TermOf(n, k) == Some(n.currentTerm) && 1 + CountMatching(n.cfg.peers, n.matchIndex, k) >= n.cfg.quorum
  }

  /** The highest countable index in (commitIndex, from], or commitIndex. */
  function CommitSearch(n: NodeState, from: nat): nat {
    if from <= n.commitIndex then n.commitIndex
    else if Countable(n, from) then from
    else CommitSearch(n, from - 1)
  }

  function AdvanceCommit(n: NodeState): NodeState
    requires n.entries != []
  {
    n.(commitIndex := CommitSearch(n, LastIndex(n)))
  }

  // ---- AppendEntries ----

  datatype Merged = Merged(entries: seq<Entry>, added: seq<Entry>, cuts: seq<Write>)

  /** The merge loop: skip what is snapshotted or matches, cut at a conflict, append the rest. */
  function Merge(entries: seq<Entry>, snapshotIndex: nat, es: seq<Entry>): (g: Merged)
    requires entries != []
    ensures g.entries != []
    decreases |es|
  {
    if es == [] then Merged(entries, [], [])
    else
      var e := es[0];
      if e.index <= snapshotIndex then Merge(entries, snapshotIndex, es[1..])
      else
        match TermIn(entries, snapshotIndex, e.index)
        case None =>
          var g := Merge(entries + [e], snapshotIndex, es[1..]);
          g.(added := [e] + g.added)
        case Some(t) =>
          if t == e.term then Merge(entries, snapshotIndex, es[1..])
          else
            var g := Merge(entries[..e.index - snapshotIndex] + [e], snapshotIndex, es[1..]);
            Merged(g.entries, [e] + g.added, [TruncateSuffix(e.index)] + g.cuts)
  }

  function AppendAnswer(n: NodeState, m: Msg, success: bool, conflictIndex: nat, conflictTerm: nat): Msg
    requires m.AppendReq?
  {
    AppendReply(n.cfg.id, m.src, m.rid, m.term, m.prevIndex, |m.entries|, n.currentTerm, success, conflictIndex, conflictTerm)
  }

  predicate PrevMissing(n: NodeState, m: Msg)
    requires m.AppendReq? && n.entries != []
  {
    m.prevIndex > LastIndex(n)
  }

  predicate PrevConflicts(n: NodeState, m: Msg)
    requires m.AppendReq?
  {
    m.prevIndex >= n.snapshotIndex && TermOf(n, m.prevIndex) != Some(m.prevTerm)
  }

  /** The node once it has taken the request's sender for its leader. */
  function Follow(n: NodeState, term: nat, leader: Id): NodeState {
    Observe(n, term).(role := Follower, leaderId := leader)
  }

  /** A section that first observes a term makes that storage call first. */
  function After(n: NodeState, term: nat, o: Out): Out {
    o.(writes := ObserveWrites(n, term) + o.writes)
  }

  function AcceptWrites(g: Merged): seq<Write> {
    g.cuts + (if g.added == [] then [] else [Append(g.added)])
  }

  function FollowerCommit(n: NodeState, leaderCommit: nat): nat
    requires n.entries != []
  {
    if leaderCommit > n.commitIndex then Min(leaderCommit, LastIndex(n)) else n.commitIndex
  }

  /** The consistency check has passed: merge, then move the commit index. */
  function AcceptEntries(n: NodeState, m: Msg): Out
    requires m.AppendReq? && n.entries != []
  {
    var g := Merge(n.entries, n.snapshotIndex, m.entries);
    var n1 := n.(entries := g.entries);
    Out(n1.(commitIndex := FollowerCommit(n1, m.leaderCommit)), AcceptWrites(g), {AppendAnswer(n, m, true, 0, 0)}, [], {})
  }

  /** A request handled by a node that follows its sender. */
  function AppendAsFollower(n: NodeState, m: Msg): Out
    requires m.AppendReq? && n.entries != []
  {
    if PrevMissing(n, m) then
      Out(n, [], {AppendAnswer(n, m, false, LastIndex(n) + 1, 0)}, [], {})
    else if PrevConflicts(n, m) then
      var t := if TermOf(n, m.prevIndex).Some? then TermOf(n, m.prevIndex).value else 0;
      Out(n, [], {AppendAnswer(n, m, false, FirstIndexOfTerm(n.entries, t, n.snapshotIndex + 1), t)}, [], {})
    else AcceptEntries(n, m)
  }

  function OnAppend(n: NodeState, m: Msg): Out
    requires m.AppendReq? && n.entries != []
  {
    if m.term < n.currentTerm then Out(n, [], {AppendAnswer(n, m, false, 0, 0)}, [], {})
    else After(n, m.term, AppendAsFollower(Follow(n, m.term, m.src), m))
  }

  /** Where a leader resumes after a rejection. */
  function NextAfterConflict(n: NodeState, conflictIndex: nat, conflictTerm: nat): nat {
    if conflictTerm == 0 then (if conflictIndex == 0 then 1 else conflictIndex)
    else
      var last := LastOfTerm(n.entries, conflictTerm);
      if last > 0 then last + 1 else conflictIndex
  }

  function OnAppendReply(n: NodeState, m: Msg): Out
    requires m.AppendReply? && n.entries != []
  {
    if m.term > n.currentTerm then Silent(StepDown(n, m.term), ObserveWrites(n, m.term))
    else if n.role != Leader || n.currentTerm != m.reqTerm then Silent(n, [])
    else if m.success then
      var newMatch := m.prevIndex + m.count;
      if newMatch > Get(n.matchIndex, m.src) then
        Silent(AdvanceCommit(n.(matchIndex := n.matchIndex[m.src := newMatch], nextIndex := n.nextIndex[m.src := newMatch + 1])), [])
      else Silent(n, [])
    else
      var next := NextAfterConflict(n, m.conflictIndex, m.conflictTerm);
      Silent(n.(nextIndex := n.nextIndex[m.src := if next < 1 then 1 else next]), [])
  }

  // ---- Elections ----

  function BeginCampaign(n: NodeState): NodeState
    requires n.entries != []
  {
    n.(role := Candidate, leaderId := "", bids := n.bids + {Bid(n.currentTerm, LastIndex(n), LastTermOf(n))})
  }

  function BecomeLeader(n: NodeState): (NodeState, seq<Write>)
    requires n.entries != []
  {
    if n.role == Leader then (n, [])
    else
      var next := LastIndex(n) + 1;
      var noop := Entry(n.currentTerm, next, NOOP);
      var n1 := n.(role := Leader, leaderId := n.cfg.id,
                   nextIndex := map p | p in n.cfg.peers :: next,
                   matchIndex := map p | p in n.cfg.peers :: 0,
                   entries := n.entries + [noop]);
      (AdvanceCommit(n1), [Append([noop])])
  }

  function VoteReqs(n: NodeState, bid: Bid): set<Msg> {
    set p | p in n.cfg.peers :: VoteReq(n.cfg.id, p, n.currentTerm, bid.lastIndex, bid.lastTerm, false)
  }

  function StartElection(n: NodeState, bid: Bid): Out
    requires n.entries != []
  {
    var n1 := n.(currentTerm := n.currentTerm + 1, role := Candidate, votedFor := n.cfg.id, leaderId := "");
    var w1 := [SaveHard(HardState(n1.currentTerm, n1.votedFor))];
    if n.cfg.quorum <= 1 then
      var (n2, w2) := BecomeLeader(n1);
      Silent(n2, w1 + w2)
    else
      Out(n1.(ballot := Ballot(n1.currentTerm, {n.cfg.id}, false)), w1, VoteReqs(n1, bid), [], {})
  }

  predicate CandidateUpToDate(n: NodeState, lastIndex: nat, lastTerm: nat)
    requires n.entries != []
  {
    if lastTerm != LastTermOf(n) then lastTerm > LastTermOf(n) else lastIndex >= LastIndex(n)
  }

  /** A real vote request, handled in its own term. */
  function VoteInTerm(n: NodeState, m: Msg): Out
    requires m.VoteReq? && n.entries != []
  {
    if (n.votedFor == "" || n.votedFor == m.src) && CandidateUpToDate(n, m.lastIndex, m.lastTerm) then
      Out(n.(votedFor := m.src), [SaveHard(HardState(n.currentTerm, m.src))],
          {VoteReply(n.cfg.id, m.src, m.term, false, n.currentTerm, true)}, [], {})
    else Out(n, [], {VoteReply(n.cfg.id, m.src, m.term, false, n.currentTerm, false)}, [], {})
  }

  /** `calm` stands for "no leader heard from lately", which only a pre-vote asks. */
  function OnVote(n: NodeState, m: Msg, calm: bool): Out
    requires m.VoteReq? && n.entries != []
  {
    if m.term < n.currentTerm then
      Out(n, [], {VoteReply(n.cfg.id, m.src, m.term, m.preVote, n.currentTerm, false)}, [], {})
    else if m.preVote then
      var granted := CandidateUpToDate(n, m.lastIndex, m.lastTerm) && calm;
      Out(n, [], {VoteReply(n.cfg.id, m.src, m.term, true, n.currentTerm, granted)}, [], {})
    else After(n, m.term, VoteInTerm(Observe(n, m.term), m))
  }

  function OnVoteReply(n: NodeState, m: Msg): Out
    requires m.VoteReply? && n.entries != []
  {
    if m.preVote then Silent(n, [])
    else if m.term > n.currentTerm then Silent(StepDown(n, m.term), ObserveWrites(n, m.term))
    else if n.role != Candidate || n.currentTerm != m.reqTerm || n.ballot.NoBallot? || n.ballot.term != m.reqTerm || !m.granted then
      Silent(n, [])
    else
      var granted := n.ballot.granted + {m.src};
      if |granted| >= n.cfg.quorum && !n.ballot.won then
        var (n1, w1) := BecomeLeader(n.(ballot := Ballot(m.reqTerm, granted, true)));
        Silent(n1, w1)
      else Silent(n.(ballot := n.ballot.(granted := granted)), [])
  }

  // ---- Snapshots ----

  function SnapAnswer(n: NodeState, m: Msg): Msg
    requires m.SnapReq?
  {
    SnapReply(n.cfg.id, m.src, m.term, m.lastIndex, n.currentTerm)
  }

  /** A snapshot handled by a node that follows its sender: one already covered is ignored. */
  function SnapshotAsFollower(n: NodeState, m: Msg): Out
    requires m.SnapReq?
  {
    if m.lastIndex <= n.snapshotIndex then Out(n, [], {SnapAnswer(n, m)}, [], {})
    else Out(Installed(n, m), InstallWrites(n, m), {SnapAnswer(n, m)}, [], {})
  }

  function OnSnapshot(n: NodeState, m: Msg): Out
    requires m.SnapReq?
  {
    if m.term < n.currentTerm then Out(n, [], {SnapAnswer(n, m)}, [], {})
    else After(n, m.term, SnapshotAsFollower(Follow(n, m.term, m.src), m))
  }

  /** The log already holds the snapshot's last entry, so its suffix is kept. */
  predicate KeepsSuffix(n: NodeState, m: Msg)
    requires m.SnapReq?
  {
    TermOf(n, m.lastIndex) == Some(m.lastTerm)
  }

  function Installed(n: NodeState, m: Msg): NodeState
    requires m.SnapReq?
  {
    var kept := if KeepsSuffix(n, m) then SliceFrom(n, m.lastIndex + 1) else [];
    n.(machine := Restored(n.machine, m.data),
       entries := [Sentinel(m.lastIndex, m.lastTerm)] + kept,
       snapshotIndex := m.lastIndex, snapshotTerm := m.lastTerm, snapshotData := m.data,
       commitIndex := if m.lastIndex > n.commitIndex then m.lastIndex else n.commitIndex,
       lastApplied := if m.lastIndex > n.lastApplied then m.lastIndex else n.lastApplied)
  }

  function InstallWrites(n: NodeState, m: Msg): seq<Write>
    requires m.SnapReq?
  {
    (if KeepsSuffix(n, m) then [] else [TruncateSuffix(n.snapshotIndex + 1)])
    + [SaveSnap(Snapshot(m.lastIndex, m.lastTerm, m.data)), TruncatePrefix(m.lastIndex)]
  }

  function OnSnapReply(n: NodeState, m: Msg): Out
    requires m.SnapReply?
  {
    if m.term > n.currentTerm then Silent(StepDown(n, m.term), ObserveWrites(n, m.term))
    else if n.role != Leader || n.currentTerm != m.reqTerm then Silent(n, [])
    else if m.lastIndex > Get(n.matchIndex, m.src) then
      Silent(n.(matchIndex := n.matchIndex[m.src := m.lastIndex], nextIndex := n.nextIndex[m.src := m.lastIndex + 1]), [])
    else Silent(n, [])
  }

  predicate ShouldCompact(n: NodeState) {
    && n.cfg.snapshotThreshold > 0 && |n.entries| - 1 > n.cfg.snapshotThreshold
    && n.lastApplied > n.snapshotIndex && TermOf(n, n.lastApplied).Some?
  }

  function Compacted(n: NodeState): NodeState
    requires ShouldCompact(n)
  {
    var term := TermOf(n, n.lastApplied).value;
    n.(entries := [Sentinel(n.lastApplied, term)] + SliceFrom(n, n.lastApplied + 1),
       snapshotIndex := n.lastApplied, snapshotTerm := term, snapshotData := Some(n.machine))
  }

  function CompactWrites(n: NodeState): seq<Write>
    requires ShouldCompact(n)
  {
    [SaveSnap(Snapshot(n.lastApplied, TermOf(n, n.lastApplied).value, Some(n.machine))), TruncatePrefix(n.lastApplied)]
  }

  // ---- Applying and proposing ----

  /** One turn of the apply loop. */
  function ApplyOne(n: NodeState): Out
    requires Valid(n) && n.lastApplied < n.commitIndex
  {
    var idx := n.lastApplied + 1;
    var n1 := n.(lastApplied := idx);
    if idx <= n.snapshotIndex then Silent(n1, [])
    else
      var e := n.entries[idx - n.snapshotIndex];
      var (machine, result) := Apply(n.machine, e.payload);
      var answers :=
        if idx in n.pending && n.pending[idx].term == e.term
        then {Answer(n.cfg.id, idx, e.term, n.pending[idx].payload, result)} else {};
      Out(n1.(machine := machine, pending := n.pending - {idx}), [], {}, [e], answers)
  }

  /** The apply loop: every committed entry not yet applied, in order. */
  function ApplyLoop(n: NodeState): (o: Out)
    requires Valid(n)
    ensures o.writes == [] && o.sends == {}
    ensures o.node == n.(lastApplied := n.commitIndex, machine := o.node.machine, pending := o.node.pending)
    decreases n.commitIndex - n.lastApplied
  {
    if n.lastApplied == n.commitIndex then Silent(n, [])
    else
      var one := ApplyOne(n);
      var rest := ApplyLoop(one.node);
      Out(rest.node, [], {}, one.applied + rest.applied, one.answers + rest.answers)
  }

  function ApplyReady(n: NodeState): Out
    requires Valid(n)
  {
    var o := ApplyLoop(n);
    if ShouldCompact(o.node) then o.(node := Compacted(o.node), writes := CompactWrites(o.node)) else o
  }

  /** Propose, and Submit when `wait` registers a waiter for the result. */
  function ProposeEntry(n: NodeState, payload: Payload, wait: bool): Out
    requires n.entries != [] && n.role == Leader
  {
    var e := Entry(n.currentTerm, LastIndex(n) + 1, payload);
    var n1 := n.(entries := n.entries + [e],
                 pending := if wait then n.pending[e.index := Waiter(e.term, payload)] else n.pending);
    Silent(AdvanceCommit(n1), [Append([e])])
  }

  // ---- Sending ----

  predicate CanReplicate(n: NodeState, peer: Id) {
    && n.role == Leader && peer in n.cfg.peers
    && Get(n.nextIndex, peer) > n.snapshotIndex && TermOf(n, Get(n.nextIndex, peer) - 1).Some?
  }

  function ReplicateTo(n: NodeState, peer: Id, rid: nat): Msg
    requires CanReplicate(n, peer)
  {
    var next := Get(n.nextIndex, peer);
    AppendReq(n.cfg.id, peer, rid, n.currentTerm, next - 1, TermOf(n, next - 1).value, SliceFrom(n, next), n.commitIndex)
  }

  /** The leadership check's empty request, with a commit index read earlier in the same call. */
  function ConfirmTo(n: NodeState, peer: Id, rid: nat, commit: nat): Msg {
    var next := Get(n.nextIndex, peer);
    if next > 0 && TermOf(n, next - 1).Some?
    then AppendReq(n.cfg.id, peer, rid, n.currentTerm, next - 1, TermOf(n, next - 1).value, [], commit)
    else AppendReq(n.cfg.id, peer, rid, n.currentTerm, 0, 0, [], commit)
  }

  function SnapshotTo(n: NodeState, peer: Id): Msg {
    SnapReq(n.cfg.id, peer, n.currentTerm, n.snapshotIndex, n.snapshotTerm, n.snapshotData)
  }

  // ---- Start-up ----

  function Above(es: seq<Entry>, index: nat): seq<Entry> {
    if es == [] then []
    else Above(es[..|es| - 1], index) + (if es[|es| - 1].index > index then [es[|es| - 1]] else [])
  }

  /** A fresh node on a storage's content. */
  ghost function Load(cfg: Config, d: Disk): NodeState {
    NodeState(cfg, d.hard.term, d.hard.votedFor,
              [Sentinel(d.snap.lastIndex, d.snap.lastTerm)] + Above(Listing(d.log), d.snap.lastIndex),
              d.snap.lastIndex, d.snap.lastTerm, d.snap.data,
              Follower, "", d.snap.lastIndex, d.snap.lastIndex, map[], map[], map[],
              Restored(INITIAL, d.snap.data), NoBallot, {})
  }

  // ---- All locked sections under one name ----

  datatype Call =
    | Timeout
    | Elect(bid: Bid)
    | Receive(m: Msg, calm: bool)
    | Submit(payload: Payload, wait: bool)
    | Replicate(peer: Id, rid: nat)
    | Confirm(peer: Id, rid: nat, commit: nat)
    | ShipSnapshot(peer: Id)
    | ApplyCommitted

  /** A node whose commit index is past its log cannot apply: the code would read beyond the log. */
  predicate CanCall(n: NodeState, c: Call) {
    Contiguous(n) &&
    match c
    case Timeout => n.role != Leader
    case Elect(bid) => bid in n.bids && n.role == Candidate && n.currentTerm == bid.base
    case Receive(m, _) => m.dst == n.cfg.id
    case Submit(_, _) => n.role == Leader
    case Replicate(peer, _) => CanReplicate(n, peer)
    case Confirm(peer, _, commit) => n.role == Leader && peer in n.cfg.peers && commit <= n.commitIndex
    case ShipSnapshot(peer) => n.role == Leader && peer in n.cfg.peers
    case ApplyCommitted => Valid(n)
  }

  function OnMessage(n: NodeState, m: Msg, calm: bool): Out
    requires n.entries != []
  {
    match m
    case VoteReq(_, _, _, _, _, _) => OnVote(n, m, calm)
    case VoteReply(_, _, _, _, _, _) => OnVoteReply(n, m)
    case AppendReq(_, _, _, _, _, _, _, _) => OnAppend(n, m)
    case AppendReply(_, _, _, _, _, _, _, _, _, _) => OnAppendReply(n, m)
    case SnapReq(_, _, _, _, _, _) => OnSnapshot(n, m)
    case SnapReply(_, _, _, _, _) => OnSnapReply(n, m)
  }

  function Handle(n: NodeState, c: Call): Out
    requires CanCall(n, c)
  {
    match c
    case Timeout => Silent(BeginCampaign(n), [])
    case Elect(bid) => StartElection(n, bid)
    case Receive(m, calm) => OnMessage(n, m, calm)
    case Submit(payload, wait) => ProposeEntry(n, payload, wait)
    case Replicate(peer, rid) => Out(n, [], {ReplicateTo(n, peer, rid)}, [], {})
    case Confirm(peer, rid, commit) => Out(n, [], {ConfirmTo(n, peer, rid, commit)}, [], {})
    case ShipSnapshot(peer) => Out(n, [], {SnapshotTo(n, peer)}, [], {})
    case ApplyCommitted => ApplyReady(n)
  }
}
