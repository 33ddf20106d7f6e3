/** The jukebox's laws, for every replica in every run of the cluster. */
module ReplicatedJukebox {
  import opened JukeboxTypes
  import opened JukeboxSpec
  import opened JukeboxLaws
  import opened SkipVotes
  import opened RaftLog
  import opened Storage
  import opened Node
  import opened Cluster
  import opened Consensus
  import opened ConsensusSteps
  import opened ConsensusLogs
  import opened ConsensusSafety
  import opened Relation
  import opened Machine
  import opened AppliedLog
  import opened Theorems

  function Payloads(log: Log): seq<Payload> {
    seq(|log|, i requires 0 <= i < |log| => log[i].payload)
  }

  lemma {:induction false} FoldIsRun(log: Log)
    ensures Fold(log) == Run(INITIAL, Payloads(log))
    decreases |log|
  {
    if log != [] {
      var front := log[..|log| - 1];
      FoldIsRun(front);
      assert Payloads(log)[..|log| - 1] == Payloads(front);
    }
  }

  /**
   Every replica, at every moment of every run, shows exactly the effective commands of what has been applied so far:
   each retried command once, no song lost or invented, and of skip votes those cast since its song came on.
   */
  lemma ReplicaExactlyOnce(run: seq<ClusterState>, steps: seq<Step>, i: nat, v: Id) returns (log: Log)
    requires IsRun(run, steps) && FoldRun(run, steps) && i < |run| && v in run[i].nodes
    ensures var n := run[i].nodes[v];
      && |log| == n.lastApplied && IsAppliedLog(run[i], log)
      && Visible(n.machine) == PerformAll(INITIAL, Effective(Payloads(log)))
      && multiset(Tape(n.machine)) == multiset(Enqueued(Effective(Payloads(log))))
      && VotesPending(n.machine) && (forall w :: w in n.machine.skipVotes <==> HasVoted(Effective(Payloads(log)), w))
  {
    log := AppliedIsFold(run, steps, i, v);
    var n := run[i].nodes[v];
    FoldIsRun(log);
    ExactlyOnce(Payloads(log));
    LogConserved(Payloads(log));
    VotesBelowThreshold(Payloads(log));
    forall w ensures w in n.machine.skipVotes <==> HasVoted(Effective(Payloads(log)), w) { LogVotes(Payloads(log), w); }
  }

  // ---- A retry through another leader ----

  /** After a tagged command with no higher number before it, its client's session holds the answer it got. */
  lemma RemembersAnswer(ps: seq<Payload>, c: Command)
    requires Tagged(c) && NoneAbove(ps, c.clientId, c.seqNo)
    ensures var out := Apply(Run(INITIAL, ps), Decoded(c)); Remembers(out.0, c.clientId, c.seqNo, out.1)
  {
    Sessions(ps, c.clientId);
    HighestMeans(ps, c.clientId, c.seqNo + 1);
    PerformIgnoresSessions(Run(INITIAL, ps), c);
  }

  lemma {:induction false} RunSplit(st: JukeState, ps: seq<Payload>, qs: seq<Payload>)
    ensures Run(st, ps + qs) == Run(Run(st, ps), qs)
    decreases |qs|
  {
    if qs == [] {
      assert ps + qs == ps;
    } else {
      var front := qs[..|qs| - 1];
      RunSplit(st, ps, front);
      assert (ps + qs)[..|ps + qs| - 1] == ps + front;
    }
  }

  lemma NoneAbovePart(ps: seq<Payload>, id: string, k: nat, a: nat, b: nat)
    requires NoneAbove(ps, id, k) && a <= b <= |ps|
    ensures NoneAbove(ps[a..b], id, k)
  {
    forall i: nat | TaggedAt(ps[a..b], i, id) ensures ps[a..b][i].command.seqNo <= k { assert TaggedAt(ps, a + i, id); }
  }

  /** In one log, a command and its retry get the same answer while its client has sent nothing newer. */
  lemma RetryInLog(ps: seq<Payload>, i: nat, j: nat, c: Command)
    requires i < j < |ps| && ps[i] == ps[j] == Decoded(c) && Tagged(c) && NoneAbove(ps, c.clientId, c.seqNo)
    ensures Apply(Run(INITIAL, ps[..i]), ps[i]).1 == Apply(Run(INITIAL, ps[..j]), ps[j]).1
  {
    var out := Apply(Run(INITIAL, ps[..i]), ps[i]);
    var mid := ps[i + 1..j];
    NoneAbovePart(ps, c.clientId, c.seqNo, 0, i);
    assert ps[0..i] == ps[..i];
    RemembersAnswer(ps[..i], c);
    assert ps[..i + 1][..i] == ps[..i];
    assert out.0 == Run(INITIAL, ps[..i + 1]);
    assert ps[..j] == ps[..i + 1] + mid;
    RunSplit(INITIAL, ps[..i + 1], mid);
    NoneAbovePart(ps, c.clientId, c.seqNo, i + 1, j);
    RemembersThrough(out.0, mid, c.clientId, c.seqNo, out.1);
  }

  /** The committed log up to an answer, which the answer's reign certifies. */
  lemma AnswerLog(s: State, a: Answer) returns (t: nat, log: Log)
    requires Inv(s) && Truthful(s, a)
    ensures AnsweredFrom(log, a) && Certified(s, log, a.index, t) && Indexed(log)
  {
    t :| t in s.reigns && 0 < a.index <= s.reigns[t].commit && a.index <= |s.reigns[t].log|
      && s.reigns[t].log[a.index - 1] == Entry(a.term, a.index, a.payload)
      && a.result == Apply(Fold(s.reigns[t].log[..a.index - 1]), a.payload).1;
    assert GoodReign(s, t);
    log := s.reigns[t].log[..a.index];
    assert log[..a.index - 1] == s.reigns[t].log[..a.index - 1];
    FoldIsRun(log[..a.index - 1]);
  }

  lemma PayloadsAgree(a: Log, b: Log, k: nat, c: nat)
    requires Agree(a, b, c) && k <= c
    ensures Payloads(a[..k]) == Payloads(b)[..k]
  {
  }

  ghost predicate AnsweredFrom(log: Log, a: Answer) {
    && 0 < a.index == |log| && log[a.index - 1] == Entry(a.term, a.index, a.payload)
    && a.result == Apply(Run(INITIAL, Payloads(log[..a.index - 1])), a.payload).1
  }

  /** All of the committed log up to an answer has been applied. */
  lemma AnswerWithin(c: ClusterState, s: State, a: Answer, log: Log, t: nat)
    requires Matched(c, s) && a in c.answers && |log| == a.index && Certified(s, log, a.index, t)
    ensures Within(c.applied, log, a.index)
  {
    assert Answered(a) in c.applied;
    assert EntryLogged(c.applied, s, Answered(a));
    var u :| LoggedBy(c.applied, s, Answered(a), u);
    CertifiedAgree(s, log, a.index, t, s.reigns[u].log, a.index, u);
  }

  lemma AnswerLogs(c: ClusterState, s: State, a: Answer, b: Answer) returns (before: Log, log: Log)
    requires Matched(c, s) && FoldInv(c, s) && a in c.answers && b in c.answers && a.index < b.index
    ensures AnsweredFrom(before, a) && AnsweredFrom(log, b) && Agree(before, log, a.index) && Within(c.applied, log, b.index)
    ensures Indexed(log)
  {
    assert Truthful(s, a) && Truthful(s, b);
    var t, u;
    t, before := AnswerLog(s, a);
    u, log := AnswerLog(s, b);
    CertifiedAgree(s, before, a.index, t, log, b.index, u);
    AnswerWithin(c, s, b, log, u);
  }

  lemma AnswersOnLogs(before: Log, log: Log, a: Answer, b: Answer, c: Command)
    requires AnsweredFrom(before, a) && AnsweredFrom(log, b) && a.index < b.index && Agree(before, log, a.index)
    requires a.payload == b.payload == Decoded(c) && Tagged(c) && NoneAbove(Payloads(log), c.clientId, c.seqNo)
    ensures a.result == b.result
  {
    PayloadsAgree(before, log, a.index - 1, a.index);
    PayloadsAgree(log, log, b.index - 1, b.index);
    RetryInLog(Payloads(log), a.index - 1, b.index - 1, c);
  }

  /** The entry's command is tagged by the client with a number above k. */
  predicate Newer(e: Entry, id: string, k: nat) {
    e.payload.Decoded? && Tagged(e.payload.command) && e.payload.command.clientId == id && e.payload.command.seqNo > k
  }

  lemma NoneNewer(applied: set<Entry>, log: Log, b: Answer, c: Command)
    requires AnsweredFrom(log, b) && Within(applied, log, b.index) && Indexed(log) && b.payload == Decoded(c)
    requires forall e :: e in applied && e.index < b.index ==> !Newer(e, c.clientId, c.seqNo)
    ensures NoneAbove(Payloads(log), c.clientId, c.seqNo)
  {
    forall i: nat | TaggedAt(Payloads(log), i, c.clientId) ensures Payloads(log)[i].command.seqNo <= c.seqNo {
      assert log[i] in applied;
    }
  }

  /**
   Two answers to one tagged command, whichever leaders gave them, are alike if no newer command of its client has
   been applied below the second.
   */
  lemma RetriesAnsweredAlike(run: seq<ClusterState>, steps: seq<Step>, i: nat, a: Answer, b: Answer, c: Command)
    requires IsRun(run, steps) && FoldRun(run, steps) && i < |run| && a in run[i].answers && b in run[i].answers
    requires a.index < b.index && a.payload == b.payload == Decoded(c) && Tagged(c)
    requires forall e :: e in run[i].applied && e.index < b.index ==> !Newer(e, c.clientId, c.seqNo)
    ensures a.result == b.result
  {
    var s := StateOf(run, steps, i);
    var before, log := AnswerLogs(run[i], s, a, b);
    NoneNewer(run[i].applied, log, b, c);
    AnswersOnLogs(before, log, a, b, c);
  }
}
