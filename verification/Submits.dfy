/**
 Who is answered (internal/raft/node.go:412-483): the apply loop delivers every result that is waited for,
 once, and a Submit at a node that keeps leading is answered as soon as its entry is applied.
 */
module Submits {
  import opened JukeboxTypes
  import opened JukeboxSpec
  import opened RaftLog
  import opened Storage
  import opened Node
  import opened Cluster
  import opened Relation
  import opened Simulation
  import opened Theorems
  import opened Mirror
  import opened FreeRuns

  // ---- What one pass of the apply loop delivers ----

  /** Nothing up to here is applied by the next pass. */
  function Done(n: NodeState): nat {
    if n.lastApplied < n.snapshotIndex then n.snapshotIndex else n.lastApplied
  }

  /** The entries after Done(n), up to index k. */
  function Upcoming(n: NodeState, k: nat): seq<Entry>
    requires Contiguous(n)
  {
    if Done(n) < k < n.snapshotIndex + |n.entries| then n.entries[Done(n) + 1 - n.snapshotIndex..k + 1 - n.snapshotIndex] else []
  }

  function MachineAfter(st: JukeState, es: seq<Entry>): JukeState
    decreases |es|
  {
    if es == [] then st else Apply(MachineAfter(st, es[..|es| - 1]), es[|es| - 1].payload).0
  }

  lemma {:induction false} MachineFirst(st: JukeState, e: Entry, es: seq<Entry>)
    ensures MachineAfter(st, [e] + es) == MachineAfter(Apply(st, e.payload).0, es)
    decreases |es|
  {
    if es == [] {
      assert [e] + es == [e];
      assert MachineAfter(st, [e][..0]) == st;
    } else {
      MachineFirst(st, e, es[..|es| - 1]);
      assert ([e] + es)[..|es|] == [e] + es[..|es| - 1];
    }
  }

  /** The pass comes by index i. */
  predicate Passed(n: NodeState, i: nat) {
    Done(n) < i <= n.commitIndex
  }

  /** The result of the command at an index the pass comes by, for its waiter. */
  function AnswerAt(n: NodeState, i: nat): Answer
    requires Valid(n) && Passed(n, i) && i in n.pending
  {
    var e := n.entries[i - n.snapshotIndex];
    Answer(n.cfg.id, i, e.term, n.pending[i].payload, Apply(MachineAfter(n.machine, Upcoming(n, i - 1)), e.payload).1)
  }

  /** The answer to a waiter that the pass comes by: its own command's result, where the log has its command's term. */
  predicate Owed(n: NodeState, a: Answer)
    requires Valid(n)
  {
    Passed(n, a.index) && a.index in n.pending && TermOf(n, a.index) == Some(n.pending[a.index].term) && a == AnswerAt(n, a.index)
  }

  /** The first entry of a pass, and what is owed after it. */
  lemma UpcomingFirst(n: NodeState, k: nat)
    requires Valid(n) && n.snapshotIndex <= n.lastApplied < k <= n.commitIndex
    ensures var e, one := n.entries[n.lastApplied + 1 - n.snapshotIndex], ApplyOne(n).node;
      && Upcoming(n, n.lastApplied) == [] && Valid(one) && Upcoming(n, k) == [e] + Upcoming(one, k)
      && MachineAfter(n.machine, Upcoming(n, k)) == MachineAfter(one.machine, Upcoming(one, k))
  {
    var e, one := n.entries[n.lastApplied + 1 - n.snapshotIndex], ApplyOne(n).node;
    assert Upcoming(n, k) == [e] + Upcoming(one, k);
    MachineFirst(n.machine, e, Upcoming(one, k));
  }

  lemma OneOwes(n: NodeState, a: Answer)
    requires Valid(n) && n.snapshotIndex <= n.lastApplied < n.commitIndex
    ensures Valid(ApplyOne(n).node) && (Owed(n, a) <==> a in ApplyOne(n).answers || Owed(ApplyOne(n).node, a))
  {
    if a.index <= n.lastApplied + 1 {
      FirstOwed(n, a);
    } else {
      LaterOwes(n, a);
    }
  }

  lemma LaterOwes(n: NodeState, a: Answer)
    requires Valid(n) && n.snapshotIndex <= n.lastApplied < n.commitIndex && a.index > n.lastApplied + 1
    ensures Valid(ApplyOne(n).node) && a !in ApplyOne(n).answers && (Owed(n, a) <==> Owed(ApplyOne(n).node, a))
  {
    AfterOne(n, a);
    if a.index <= n.commitIndex { UpcomingFirst(n, a.index - 1); }
    LaterOwed(n, ApplyOne(n).node, a);
  }

  lemma AfterOne(n: NodeState, a: Answer)
    requires Valid(n) && n.snapshotIndex <= n.lastApplied < n.commitIndex && a.index > n.lastApplied + 1
    ensures a !in ApplyOne(n).answers && Moved(n, ApplyOne(n).node)
  {
  }

  ghost predicate Moved(n: NodeState, one: NodeState) {
    one == n.(lastApplied := n.lastApplied + 1, machine := one.machine, pending := n.pending - {n.lastApplied + 1})
  }

  lemma LaterOwed(n: NodeState, one: NodeState, a: Answer)
    requires Valid(n) && n.snapshotIndex <= n.lastApplied < n.commitIndex && Moved(n, one) && a.index > n.lastApplied + 1
    requires a.index <= n.commitIndex ==> MachineAfter(n.machine, Upcoming(n, a.index - 1)) == MachineAfter(one.machine, Upcoming(one, a.index - 1))
    ensures Valid(one) && (Owed(n, a) <==> Owed(one, a))
  {
    assert Passed(n, a.index) <==> Passed(one, a.index);
    if Passed(n, a.index) && a.index in n.pending { SameAnswer(n, one, a.index); }
  }

  lemma SameAnswer(n: NodeState, one: NodeState, i: nat)
    requires Valid(n) && n.snapshotIndex <= n.lastApplied < n.commitIndex && Moved(n, one) && n.lastApplied + 1 < i <= n.commitIndex
    requires i in n.pending && MachineAfter(n.machine, Upcoming(n, i - 1)) == MachineAfter(one.machine, Upcoming(one, i - 1))
    ensures Valid(one) && Passed(one, i) && i in one.pending && AnswerAt(one, i) == AnswerAt(n, i)
  {
  }

  lemma FirstOwed(n: NodeState, a: Answer)
    requires Valid(n) && n.snapshotIndex <= n.lastApplied < n.commitIndex && a.index <= n.lastApplied + 1
    ensures Valid(ApplyOne(n).node) && !Owed(ApplyOne(n).node, a) && (Owed(n, a) <==> a in ApplyOne(n).answers)
  {
    assert MachineAfter(n.machine, Upcoming(n, n.lastApplied)) == n.machine;
  }

  lemma {:induction false} LoopOwes(n: NodeState, a: Answer)
    requires Valid(n)
    ensures a in ApplyLoop(n).answers <==> Owed(n, a)
    decreases n.commitIndex - n.lastApplied
  {
    if n.lastApplied < n.commitIndex {
      var one := ApplyOne(n);
      LoopOwes(one.node, a);
      if n.lastApplied >= n.snapshotIndex { OneOwes(n, a); } else { SkippedOwes(n, a); }
    }
  }

  /** An index under the snapshot is passed over. */
  lemma SkippedOwes(n: NodeState, a: Answer)
    requires Valid(n) && n.lastApplied < n.snapshotIndex && n.lastApplied < n.commitIndex
    ensures var one := ApplyOne(n);
      one.node == n.(lastApplied := n.lastApplied + 1) && one.answers == {} && Valid(one.node) && (Owed(n, a) <==> Owed(one.node, a))
  {
    var one := ApplyOne(n);
    assert Done(one.node) == Done(n);
    if Passed(n, a.index) { assert Upcoming(one.node, a.index - 1) == Upcoming(n, a.index - 1); }
  }

  /** A pass of the apply loop delivers exactly the results owed. */
  lemma AnswersExact(n: NodeState, a: Answer)
    requires Valid(n)
    ensures a in ApplyReady(n).answers <==> Owed(n, a)
  {
    LoopOwes(n, a);
  }

  /** Waiters the pass comes by are gone; the others stay as they were. */
  lemma {:induction false} LoopClears(n: NodeState, i: nat)
    requires Valid(n)
    ensures var n' := ApplyLoop(n).node;
      && (i in n'.pending <==> i in n.pending && !Passed(n, i)) && (i in n'.pending ==> n'.pending[i] == n.pending[i])
    decreases n.commitIndex - n.lastApplied
  {
    if n.lastApplied < n.commitIndex { LoopClears(ApplyOne(n).node, i); }
  }

  /**
   A waiter the pass comes by is answered if and only if the log has its command's term there, by one answer only,
   and is gone afterwards; every other waiter stays.
   */
  lemma WaitersServed(n: NodeState, i: nat)
    requires Valid(n) && i in n.pending
    ensures var o := ApplyReady(n);
      && (Passed(n, i) ==>
            && i !in o.node.pending
            && ((exists a :: a in o.answers && a.index == i) <==> TermOf(n, i) == Some(n.pending[i].term))
            && (forall a, b :: a in o.answers && b in o.answers && a.index == i && b.index == i ==> a == b)
            && (forall a :: a in o.answers && a.index == i ==> a.node == n.cfg.id && a.term == n.pending[i].term && a.payload == n.pending[i].payload))
      && (!Passed(n, i) ==>
            i in o.node.pending && o.node.pending[i] == n.pending[i] && forall a :: a in o.answers ==> a.index != i)
  {
    LoopClears(n, i);
    forall a ensures a in ApplyReady(n).answers <==> Owed(n, a) { AnswersExact(n, a); }
    OwedTo(n, i, ApplyReady(n).answers);
  }

  lemma OwedTo(n: NodeState, i: nat, answers: set<Answer>)
    requires Valid(n) && i in n.pending && forall a :: a in answers <==> Owed(n, a)
    ensures Passed(n, i) ==> ((exists a :: a in answers && a.index == i) <==> TermOf(n, i) == Some(n.pending[i].term))
    ensures forall a, b :: a in answers && b in answers && a.index == i && b.index == i ==> a == b
    ensures forall a :: a in answers && a.index == i ==>
      Passed(n, i) && a.node == n.cfg.id && a.term == n.pending[i].term && a.payload == n.pending[i].payload
  {
    if Passed(n, i) && TermOf(n, i) == Some(n.pending[i].term) { assert Owed(n, AnswerAt(n, i)); }
  }

  // ---- A Submit at a node that keeps leading ----

  predicate Leads(n: NodeState, t: nat) {
    n.role == Leader && n.currentTerm == t
  }

  /** The command is in the leader's log, not yet applied there, and its Submit waits for it. */
  predicate Waiting(n: NodeState, t: nat, k: nat, payload: Payload) {
    && Leads(n, t) && k in n.pending && n.pending[k] == Waiter(t, payload)
    && n.lastApplied < k && Holds(n, Entry(t, k, payload))
  }

  ghost predicate AnsweredIn(answers: set<Answer>, v: Id, t: nat, k: nat, payload: Payload) {
    exists a :: a in answers && a.node == v && a.term == t && a.index == k && a.payload == payload
  }

  lemma SubmitWaits(n: NodeState, payload: Payload)
    requires Valid(n) && n.role == Leader
    ensures Waiting(ProposeEntry(n, payload, true).node, n.currentTerm, LastIndex(n) + 1, payload)
  {
  }

  /** What a message can change at a node that leads on. */
  ghost predicate SameLog(n: NodeState, n': NodeState) {
    n'.entries == n.entries && n'.snapshotIndex == n.snapshotIndex && n'.lastApplied == n.lastApplied && n'.pending == n.pending
  }

  lemma RequestLeadsOn(n: NodeState, m: Msg, calm: bool, t: nat)
    requires n.entries != [] && Leads(n, t) && (m.VoteReq? || m.AppendReq? || m.SnapReq?) && Leads(OnMessage(n, m, calm).node, t)
    ensures SameLog(n, OnMessage(n, m, calm).node)
  {
    if m.VoteReq? { VoteLeadsOn(n, m, calm, t); } else if m.AppendReq? { AppendLeadsOn(n, m, t); }
  }

  lemma VoteLeadsOn(n: NodeState, m: Msg, calm: bool, t: nat)
    requires n.entries != [] && Leads(n, t) && m.VoteReq? && Leads(OnVote(n, m, calm).node, t)
    ensures SameLog(n, OnVote(n, m, calm).node)
  {
  }

  lemma AppendLeadsOn(n: NodeState, m: Msg, t: nat)
    requires n.entries != [] && Leads(n, t) && m.AppendReq? && Leads(OnAppend(n, m).node, t)
    ensures SameLog(n, OnAppend(n, m).node)
  {
  }

  lemma ReplyLeadsOn(n: NodeState, m: Msg, calm: bool, t: nat)
    requires n.entries != [] && Leads(n, t) && (m.VoteReply? || m.AppendReply? || m.SnapReply?) && Leads(OnMessage(n, m, calm).node, t)
    ensures SameLog(n, OnMessage(n, m, calm).node)
  {
  }

  lemma MessageWaits(n: NodeState, m: Msg, calm: bool, t: nat, k: nat, payload: Payload)
    requires Contiguous(n) && Waiting(n, t, k, payload) && Leads(OnMessage(n, m, calm).node, t)
    ensures Waiting(OnMessage(n, m, calm).node, t, k, payload)
  {
    if m.VoteReq? || m.AppendReq? || m.SnapReq? { RequestLeadsOn(n, m, calm, t); } else { ReplyLeadsOn(n, m, calm, t); }
  }

  lemma AnotherSubmitWaits(n: NodeState, other: Payload, wait: bool, t: nat, k: nat, payload: Payload)
    requires Contiguous(n) && Waiting(n, t, k, payload)
    ensures Waiting(ProposeEntry(n, other, wait).node, t, k, payload)
  {
  }

  lemma ApplyWaits(n: NodeState, t: nat, k: nat, payload: Payload)
    requires Valid(n) && Waiting(n, t, k, payload)
    ensures n.commitIndex < k ==> Waiting(ApplyReady(n).node, t, k, payload)
    ensures k <= n.commitIndex ==> AnsweredIn(ApplyReady(n).answers, n.cfg.id, t, k, payload)
  {
    WaitersServed(n, k);
  }

  /** A step of a node that leads on leaves the Submit waiting, or answers it. */
  lemma StepWaits(n: NodeState, call: Call, t: nat, k: nat, payload: Payload)
    requires CanCall(n, call) && Waiting(n, t, k, payload) && Leads(Handle(n, call).node, t)
    ensures Waiting(Handle(n, call).node, t, k, payload) || AnsweredIn(Handle(n, call).answers, n.cfg.id, t, k, payload)
  {
    match call {
      case Receive(m, calm) => MessageWaits(n, m, calm, t, k, payload);
      case Submit(other, wait) => AnotherSubmitWaits(n, other, wait, t, k, payload);
      case ApplyCommitted => ApplyWaits(n, t, k, payload);
      case _ =>
    }
  }

  ghost predicate LeadsAt(run: seq<ClusterState>, h: nat, v: Id, t: nat) {
    h < |run| && v in run[h].nodes && Leads(run[h].nodes[v], t)
  }

  ghost predicate LeadsThrough(run: seq<ClusterState>, i: nat, j: nat, v: Id, t: nat) {
    i <= j < |run| && LeadsAt(run, i, v, t) && LeadsAt(run, j, v, t)
    && forall h: nat {:trigger LeadsAt(run, h, v, t)} :: i <= h <= j ==> LeadsAt(run, h, v, t)
  }

  lemma AnswerStays(answers: set<Answer>, more: set<Answer>, v: Id, t: nat, k: nat, payload: Payload)
    requires AnsweredIn(answers, v, t, k, payload)
    ensures AnsweredIn(answers + more, v, t, k, payload) && AnsweredIn(more + answers, v, t, k, payload)
  {
    var a :| a in answers && a.node == v && a.term == t && a.index == k && a.payload == payload;
    assert a in answers + more && a in more + answers;
  }

  lemma TakeWaits(c: ClusterState, step: Step, v: Id, t: nat, k: nat, payload: Payload)
    requires FreeInv(c) && CanStep(c, step) && v in c.nodes && v in Take(c, step).nodes
    requires Waiting(c.nodes[v], t, k, payload) && Leads(Take(c, step).nodes[v], t)
    ensures Waiting(Take(c, step).nodes[v], t, k, payload) || AnsweredIn(Take(c, step).answers, v, t, k, payload)
  {
    assert Placed(c, v);
    if step.v == v && step.Act? {
      var o := Handle(c.nodes[v], step.call);
      StepWaits(c.nodes[v], step.call, t, k, payload);
      if AnsweredIn(o.answers, v, t, k, payload) { AnswerStays(o.answers, c.answers, v, t, k, payload); }
    }
  }

  /** The Submit waits at state h, or has been answered. */
  ghost predicate Fate(run: seq<ClusterState>, h: nat, v: Id, t: nat, k: nat, payload: Payload) {
    h < |run| && v in run[h].nodes && (Waiting(run[h].nodes[v], t, k, payload) || AnsweredIn(run[h].answers, v, t, k, payload))
  }

  lemma FateStep(run: seq<ClusterState>, steps: seq<Step>, h: nat, v: Id, t: nat, k: nat, payload: Payload)
    requires IsFreeRun(run, steps) && h < |steps| && LeadsAt(run, h + 1, v, t) && Fate(run, h, v, t, k, payload)
    ensures Fate(run, h + 1, v, t, k, payload)
  {
    assert FreeStep(run, steps, h);
    FreeRunInv(run, steps, h);
    if Waiting(run[h].nodes[v], t, k, payload) {
      TakeWaits(run[h], steps[h], v, t, k, payload);
    } else {
      AnswersGrow(run[h], steps[h], v, t, k, payload);
    }
  }

  lemma {:induction false} WaitsOn(run: seq<ClusterState>, steps: seq<Step>, i: nat, j: nat, v: Id, t: nat, k: nat, payload: Payload)
    requires IsFreeRun(run, steps) && LeadsThrough(run, i, j, v, t) && Fate(run, i, v, t, k, payload)
    ensures Fate(run, j, v, t, k, payload)
    decreases j - i
  {
    if i < j {
      assert LeadsAt(run, j - 1, v, t);
      WaitsOn(run, steps, i, j - 1, v, t, k, payload);
      FateStep(run, steps, j - 1, v, t, k, payload);
    }
  }

  lemma AnswersGrow(c: ClusterState, step: Step, v: Id, t: nat, k: nat, payload: Payload)
    requires CanStep(c, step) && AnsweredIn(c.answers, v, t, k, payload)
    ensures AnsweredIn(Take(c, step).answers, v, t, k, payload)
  {
    AnswerStays(c.answers, Handle(c.nodes[step.v], step.call).answers, v, t, k, payload);
  }

  /**
   A Submit at a node that leads on in the same term is answered as soon as the node has applied its entry, and
   until then waits for it, over every free run.
   */
  lemma SubmitAnswered(run: seq<ClusterState>, steps: seq<Step>, i: nat, j: nat, v: Id, payload: Payload)
    requires IsFreeRun(run, steps) && i < j < |run| && steps[i] == Act(v, Submit(payload, true)) && v in run[i].nodes && Valid(run[i].nodes[v])
    requires LeadsThrough(run, i, j, v, run[i].nodes[v].currentTerm)
    ensures var t, k := run[i].nodes[v].currentTerm, LastIndex(run[i].nodes[v]) + 1;
      && (run[j].nodes[v].lastApplied >= k ==> AnsweredIn(run[j].answers, v, t, k, payload))
      && (Waiting(run[j].nodes[v], t, k, payload) || AnsweredIn(run[j].answers, v, t, k, payload))
  {
    assert FreeStep(run, steps, i);
    var n := run[i].nodes[v];
    SubmitWaits(n, payload);
    assert LeadsAt(run, i + 1, v, n.currentTerm) && LeadsThrough(run, i + 1, j, v, n.currentTerm);
    WaitsOn(run, steps, i + 1, j, v, n.currentTerm, LastIndex(n) + 1, payload);
  }

  // ---- Nobody waits at a node that does not lead ----

  /** Every waiter waits for a command of the present term that the node, leading it, has still to apply. */
  ghost predicate AllWaiting(n: NodeState) {
    forall i: nat {:trigger i in n.pending} :: i in n.pending ==> Waiting(n, n.currentTerm, i, n.pending[i].payload)
  }

  predicate Elsewhere(m: Msg) {
    m.AppendReq? || m.SnapReq? ==> m.src != m.dst
  }

  lemma SendsElsewhere(n: NodeState, call: Call, m: Msg)
    requires CanCall(n, call) && n.cfg.id !in n.cfg.peers && m in Handle(n, call).sends
    ensures Elsewhere(m)
  {
    match call {
      case Receive(q, calm) => OnlyReplies(n, q, calm, m);
      case _ =>
    }
  }

  lemma OnlyReplies(n: NodeState, q: Msg, calm: bool, m: Msg)
    requires n.entries != [] && m in OnMessage(n, q, calm).sends
    ensures !m.AppendReq? && !m.SnapReq?
  {
    if q.VoteReq? { VoteSends(n, q, calm, m); } else if q.AppendReq? { AppendSends(n, q, m); } else { OthersSend(n, q, calm, m); }
  }

  lemma {:induction false} MessagesElsewhere(run: seq<ClusterState>, steps: seq<Step>, i: nat, m: Msg)
    requires IsFreeRun(run, steps) && i < |run| && m in run[i].msgs
    ensures Elsewhere(m)
    decreases i
  {
    if i > 0 {
      assert FreeStep(run, steps, i - 1);
      if m in run[i - 1].msgs {
        MessagesElsewhere(run, steps, i - 1, m);
      } else {
        FreeRunInv(run, steps, i - 1);
        assert Placed(run[i - 1], steps[i - 1].v);
        SendsElsewhere(run[i - 1].nodes[steps[i - 1].v], steps[i - 1].call, m);
      }
    }
  }

  /** A leader gets no request of its own term. */
  lemma NoRival(run: seq<ClusterState>, steps: seq<Step>, i: nat, v: Id, m: Msg)
    requires IsRun(run, steps) && i < |run| && v in run[i].nodes && run[i].nodes[v].role == Leader
    requires m in run[i].msgs && (m.AppendReq? || m.SnapReq?) && m.dst == v
    ensures m.term != run[i].nodes[v].currentTerm
  {
    RunIsFree(run, steps);
    MessagesElsewhere(run, steps, i, m);
    var s := StateOf(run, steps, i);
    NodeOf(run[i], s, v);
    assert MsgRel(s, m);
  }

  lemma MessageAllWaiting(n: NodeState, m: Msg, calm: bool)
    requires Contiguous(n) && AllWaiting(n) && (n.role == Leader && (m.AppendReq? || m.SnapReq?) ==> m.term != n.currentTerm)
    ensures AllWaiting(OnMessage(n, m, calm).node)
  {
    var n' := OnMessage(n, m, calm).node;
    WaitersStayOrGo(n, m, calm);
    forall i: nat | i in n'.pending ensures Waiting(n', n'.currentTerm, i, n'.pending[i].payload) {
      assert i in n.pending;
      MessageWaits(n, m, calm, n.currentTerm, i, n.pending[i].payload);
    }
  }

  lemma WaitersStayOrGo(n: NodeState, m: Msg, calm: bool)
    requires Contiguous(n) && AllWaiting(n) && (n.role == Leader && (m.AppendReq? || m.SnapReq?) ==> m.term != n.currentTerm)
    ensures var n' := OnMessage(n, m, calm).node; n'.pending == map[] || (n'.pending == n.pending && Leads(n, n.currentTerm) && Leads(n', n.currentTerm))
  {
    assert n.role != Leader ==> n.pending == map[];
    if m.VoteReq? { VoteWaiters(n, m, calm); }
    else if m.AppendReq? { AppendWaiters(n, m); }
    else { OtherWaiters(n, m, calm); }
  }

  lemma VoteWaiters(n: NodeState, m: Msg, calm: bool)
    requires n.entries != [] && m.VoteReq?
    ensures var n' := OnVote(n, m, calm).node; n'.pending == map[] || (n'.pending == n.pending && n'.role == n.role && n'.currentTerm == n.currentTerm)
  {
  }

  lemma AppendWaiters(n: NodeState, m: Msg)
    requires n.entries != [] && m.AppendReq? && (n.role == Leader ==> m.term != n.currentTerm) && (n.role != Leader ==> n.pending == map[])
    ensures var n' := OnAppend(n, m).node; n'.pending == map[] || (n'.pending == n.pending && n'.role == n.role == Leader && n'.currentTerm == n.currentTerm)
  {
  }

  lemma OtherWaiters(n: NodeState, m: Msg, calm: bool)
    requires n.entries != [] && !m.VoteReq? && !m.AppendReq? && (n.role != Leader ==> n.pending == map[])
    requires n.role == Leader && m.SnapReq? ==> m.term != n.currentTerm
    ensures var n' := OnMessage(n, m, calm).node;
      n'.pending == map[] || (n'.pending == n.pending && n'.role == n.role == Leader && n'.currentTerm == n.currentTerm)
  {
  }

  lemma CallAllWaiting(n: NodeState, call: Call)
    requires Valid(n) && CanCall(n, call) && AllWaiting(n)
    requires n.role == Leader && call.Receive? && (call.m.AppendReq? || call.m.SnapReq?) ==> call.m.term != n.currentTerm
    ensures AllWaiting(Handle(n, call).node)
  {
    match call {
      case Receive(m, calm) => MessageAllWaiting(n, m, calm);
      case Submit(payload, wait) => ProposeAllWaiting(n, payload, wait);
      case ApplyCommitted => ApplyAllWaiting(n);
      case Elect(bid) => assert n.pending == map[];
      case _ =>
    }
  }

  lemma ProposeAllWaiting(n: NodeState, payload: Payload, wait: bool)
    requires Valid(n) && n.role == Leader && AllWaiting(n)
    ensures AllWaiting(ProposeEntry(n, payload, wait).node)
  {
    var n' := ProposeEntry(n, payload, wait).node;
    SubmitWaits(n, payload);
    forall i: nat | i in n'.pending ensures Waiting(n', n'.currentTerm, i, n'.pending[i].payload) {
      if i in n.pending { AnotherSubmitWaits(n, payload, wait, n.currentTerm, i, n.pending[i].payload); }
    }
  }

  lemma ApplyAllWaiting(n: NodeState)
    requires Valid(n) && AllWaiting(n)
    ensures AllWaiting(ApplyReady(n).node)
  {
    var n' := ApplyReady(n).node;
    forall i: nat | i in n'.pending ensures Waiting(n', n'.currentTerm, i, n'.pending[i].payload) {
      LoopClears(n, i);
      ApplyWaits(n, n.currentTerm, i, n.pending[i].payload);
    }
  }

  /** No Submit waits at a node that does not lead the term of its command: losing the lead drops every waiter. */
  lemma {:induction false} WaitersLead(run: seq<ClusterState>, steps: seq<Step>, i: nat, v: Id)
    requires IsRun(run, steps) && i < |run| && v in run[i].nodes
    ensures AllWaiting(run[i].nodes[v])
    decreases i
  {
    if i > 0 {
      var h := i - 1;
      assert RunStep(run, steps, h);
      assert v in run[h].nodes;
      WaitersLead(run, steps, h, v);
      if steps[h].v == v && steps[h].Act? {
        var call := steps[h].call;
        NodesValid(run, steps, h, v);
        if run[h].nodes[v].role == Leader && call.Receive? && (call.m.AppendReq? || call.m.SnapReq?) {
          RunIsFree(run, steps);
          FreeRunInv(run, steps, h);
          assert Placed(run[h], v);
          NoRival(run, steps, h, v, call.m);
        }
        CallAllWaiting(run[h].nodes[v], call);
      }
    }
  }
}
