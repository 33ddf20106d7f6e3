/** The figure 3 properties of the consensus core, and how its states evolve over a run. */
module ConsensusSafety {
  import opened JukeboxTypes
  import opened RaftLog
  import opened Consensus
  import opened ConsensusSteps
  import opened ConsensusLogs

  lemma InitInv(ids: set<Id>)
    ensures Inv(Init(ids))
  {
    var s := Init(ids);
    forall v | v in s.servers ensures GoodServer(s, v) { }
    forall v | v in s.servers ensures GoodCommit(s, v) { }
    forall v, t: nat, k: nat | v in s.servers ensures Retained(s, v, t, k) { }
  }

  lemma NextInv(s: State, a: Action)
    requires Inv(s) && Enabled(s, a)
    ensures Inv(Next(s, a))
  {
    match a
    case Bump(v, term) => BumpInv(s, v, term);
    case Campaigning(v) => CampaigningInv(s, v);
    case Stand(v, c) => StandInv(s, v, c);
    case Grant(v, cand) => GrantInv(s, v, cand);
    case Win(v, voters, p) => WinInv(s, v, voters, p);
    case Extend(v, p) => ExtendInv(s, v, p);
    case Adopt(_, _, _, _) => AdoptInv(s, a);
    case CommitTo(v, k) => CommitToInv(s, v, k);
    case Ship(v, k) => ShipInv(s, v, k);
    case Restart(v, commit) => RestartInv(s, v, commit);
    case Forget(v, k) => ForgetInv(s, v, k);
  }

  /** Log matching: an entry's index and term determine it and everything before it. */
  lemma LogMatching(s: State, u: Id, v: Id, i: nat)
    requires Inv(s) && u in s.servers && v in s.servers
    requires i < |s.servers[u].log| && i < |s.servers[v].log|
    requires s.servers[u].log[i].term == s.servers[v].log[i].term
    ensures Agree(s.servers[u].log, s.servers[v].log, i + 1)
  {
    assert GoodServer(s, u) && GoodServer(s, v);
    assert RootedAt(s.reigns, s.servers[u].log, i);
    assert RootedAt(s.reigns, s.servers[v].log, i);
  }

  /** Two certified prefixes, whoever holds them, agree as far as both go. */
  lemma CertifiedAgree(s: State, a: Log, j: nat, t: nat, b: Log, k: nat, u: nat)
    requires Inv(s) && Certified(s, a, j, t) && Certified(s, b, k, u) && j <= k
    ensures Agree(a, b, j)
  {
    if j > 0 {
      if t <= u { AnnouncedInLater(s, t, u); } else { AnnouncedInLater(s, u, t); }
    }
  }

  /** State machine safety: committed prefixes of any two servers agree. */
  lemma CommittedAgree(s: State, u: Id, v: Id)
    requires Inv(s) && u in s.servers && v in s.servers && s.servers[u].commit <= s.servers[v].commit
    ensures Agree(s.servers[u].log, s.servers[v].log, s.servers[u].commit)
  {
    assert GoodCommit(s, u) && GoodCommit(s, v);
    var a, b := s.servers[u], s.servers[v];
    CertifiedAgree(s, a.log, a.commit, a.cert, b.log, b.commit, b.cert);
  }

  // ---- How the state evolves when one server acts ----

  ghost predicate ReignEvolves(s: State, s': State, v: Id, t: nat)
    requires t in s.reigns
  {
    && t in s'.reigns && s'.reigns[t].leader == s.reigns[t].leader
    && Agree(s.reigns[t].log, s'.reigns[t].log, |s.reigns[t].log|)
    && s.reigns[t].commit <= s'.reigns[t].commit && s.reigns[t].sent <= s'.reigns[t].sent
    && (s.reigns[t].leader != v ==> s'.reigns[t] == s.reigns[t])
  }

  ghost predicate ServerStands(s: State, s': State, u: Id) {
    u in s.servers && u in s'.servers ==> s'.servers[u] == s.servers[u]
  }

  ghost predicate VoteStands(s: State, s': State, v: Id, u: Id, t: nat) {
    && ((u, t) in s.votes ==> (u, t) in s'.votes && s'.votes[(u, t)] == s.votes[(u, t)])
    && (u != v && (u, t) in s'.votes ==> (u, t) in s.votes)
  }

  ghost predicate AckStands(s: State, s': State, v: Id, u: Id, t: nat) {
    Acked(s, u, t) <= Acked(s', u, t) && (u != v ==> Acked(s', u, t) == Acked(s, u, t))
  }

  ghost predicate NewReign(s: State, s': State, v: Id, t: nat) {
    t in s'.reigns && t !in s.reigns ==> s'.reigns[t].leader == v
  }

  /** Nothing recorded is lost, and other servers stand still. */
  ghost predicate Continues(s: State, s': State, v: Id) {
    && v in s.servers && s'.servers.Keys == s.servers.Keys
    && s.servers[v].term <= s'.servers[v].term
    && (forall u {:trigger ServerStands(s, s', u)} :: u != v ==> ServerStands(s, s', u))
    && (forall t {:trigger ReignEvolves(s, s', v, t)} :: t in s.reigns ==> ReignEvolves(s, s', v, t))
    && (forall t: nat {:trigger NewReign(s, s', v, t)} :: NewReign(s, s', v, t))
    && (forall u, t: nat {:trigger VoteStands(s, s', v, u, t)} :: VoteStands(s, s', v, u, t))
    && (forall u, t: nat {:trigger AckStands(s, s', v, u, t)} :: AckStands(s, s', v, u, t))
  }

  ghost predicate StrictAck(s: State, u: Id, t: nat) {
    (u, t) in s.acked && u in s.servers && t in s.reigns && t == s.servers[u].term ==>
      Agree(s.reigns[t].log, s.servers[u].log, s.acked[(u, t)])
  }

  /** No server has forgotten anything it acknowledged in its present term. */
  ghost predicate NothingForgotten(s: State) {
    forall u, t: nat {:trigger StrictAck(s, u, t)} :: StrictAck(s, u, t)
  }

  /** A step in which v also keeps what it committed and what it acknowledged. */
  ghost predicate Steadfast(s: State, s': State, v: Id) {
    && Continues(s, s', v)
    && Agree(s.servers[v].log, s'.servers[v].log, s.servers[v].commit)
    && (NothingForgotten(s) ==> NothingForgotten(s'))
  }

  ghost predicate SentAlike(s: State, s': State, t: nat) {
    t in s'.reigns ==> s'.reigns[t].sent == if t in s.reigns then s.reigns[t].sent else 0
  }

  /** No snapshot is sent. */
  ghost predicate SentStands(s: State, s': State) {
    forall t: nat {:trigger SentAlike(s, s', t)} :: SentAlike(s, s', t)
  }

  ghost predicate Evolves(s: State, s': State, v: Id) {
    Steadfast(s, s', v) && SentStands(s, s')
  }

  lemma EvolvesRefl(s: State, v: Id)
    requires Inv(s) && v in s.servers
    ensures Evolves(s, s, v)
  {
    assert GoodCommit(s, v);
    forall t | t in s.reigns ensures ReignEvolves(s, s, v, t) { }
  }

  lemma ContinuesTrans(s: State, s1: State, s2: State, v: Id)
    requires Continues(s, s1, v) && Continues(s1, s2, v)
    ensures Continues(s, s2, v)
  {
    forall t | t in s.reigns ensures ReignEvolves(s, s2, v, t) {
      assert ReignEvolves(s, s1, v, t);
      assert ReignEvolves(s1, s2, v, t);
    }
    forall t: nat ensures NewReign(s, s2, v, t) {
      assert NewReign(s, s1, v, t) && NewReign(s1, s2, v, t);
      assert t in s1.reigns ==> ReignEvolves(s1, s2, v, t);
    }
    forall u | u != v ensures ServerStands(s, s2, u) { assert ServerStands(s, s1, u) && ServerStands(s1, s2, u); }
    forall u, t: nat ensures VoteStands(s, s2, v, u, t) { assert VoteStands(s, s1, v, u, t) && VoteStands(s1, s2, v, u, t); }
    forall u, t: nat ensures AckStands(s, s2, v, u, t) { assert AckStands(s, s1, v, u, t) && AckStands(s1, s2, v, u, t); }
  }

  lemma EvolvesTrans(s: State, s1: State, s2: State, v: Id)
    requires Evolves(s, s1, v) && Evolves(s1, s2, v)
    requires s.servers[v].commit <= s1.servers[v].commit
    ensures Evolves(s, s2, v)
  {
    ContinuesTrans(s, s1, s2, v);
    forall t: nat ensures SentAlike(s, s2, t) {
      assert SentAlike(s, s1, t) && SentAlike(s1, s2, t);
      assert t in s.reigns ==> ReignEvolves(s, s1, v, t);
    }
  }

  lemma NextEvolves(s: State, a: Action)
    requires Inv(s) && Enabled(s, a) && !a.Forget? && !a.Ship?
    ensures Evolves(s, Next(s, a), a.v)
  {
    match a
    case Bump(_, _) => QuietActions(s, a);
    case Campaigning(_) => QuietActions(s, a);
    case Stand(_, _) => QuietActions(s, a);
    case Grant(_, _) => QuietActions(s, a);
    case Restart(_, _) => QuietActions(s, a);
    case Win(v, voters, p) => WinEvolves(s, v, voters, p);
    case Extend(v, p) => ExtendEvolves(s, v, p);
    case CommitTo(v, k) => CommitToEvolves(s, v, k);
    case Adopt(_, _, _, _) => AdoptEvolves(s, a);
  }

  lemma ForgetContinues(s: State, v: Id, k: nat)
    requires Inv(s) && Enabled(s, Forget(v, k))
    ensures Continues(s, Next(s, Forget(v, k)), v) && SentStands(s, Next(s, Forget(v, k)))
  {
    forall t | t in s.reigns ensures ReignEvolves(s, Next(s, Forget(v, k)), v, t) { }
  }

  lemma ShipEvolves(s: State, v: Id, k: nat)
    requires Inv(s) && Enabled(s, Ship(v, k))
    ensures Steadfast(s, Next(s, Ship(v, k)), v)
  {
    assert GoodCommit(s, v);
    ShipGrows(s, v, k);
    GrowingSteadfast(s, Next(s, Ship(v, k)), v);
  }

  lemma QuietActions(s: State, a: Action)
    requires Inv(s) && Enabled(s, a)
    requires a.Bump? || a.Campaigning? || a.Stand? || a.Grant? || a.Restart?
    ensures Evolves(s, Next(s, a), a.v)
  {
    assert GoodCommit(s, a.v);
    var u := s.servers[a.v].term + 1;
    assert (a.v, u) in s.votes ==> GoodVote(s, a.v, u);
    QuietEvolves(s, Next(s, a), a.v);
  }

  lemma WinEvolves(s: State, v: Id, voters: set<Id>, p: Payload)
    requires Inv(s) && Enabled(s, Win(v, voters, p))
    ensures Evolves(s, Next(s, Win(v, voters, p)), v)
  {
    assert GoodCommit(s, v);
    NoOtherLeader(s, v, voters, p);
    WinGrows(s, v, voters, p);
    GrowingEvolves(s, Next(s, Win(v, voters, p)), v);
  }

  lemma ExtendEvolves(s: State, v: Id, p: Payload)
    requires Inv(s) && Enabled(s, Extend(v, p))
    ensures Evolves(s, Next(s, Extend(v, p)), v)
  {
    assert GoodCommit(s, v);
    ExtendGrows(s, v, p);
    GrowingEvolves(s, Next(s, Extend(v, p)), v);
  }

  lemma CommitToEvolves(s: State, v: Id, k: nat)
    requires Inv(s) && Enabled(s, CommitTo(v, k))
    ensures Evolves(s, Next(s, CommitTo(v, k)), v)
  {
    assert GoodCommit(s, v);
    CommitToGrows(s, v, k);
    GrowingEvolves(s, Next(s, CommitTo(v, k)), v);
  }

  lemma AdoptEvolves(s: State, a: Action)
    requires Inv(s) && Enabled(s, a) && a.Adopt?
    ensures Evolves(s, Next(s, a), a.v)
  {
    var n := s.servers[a.v];
    var s' := Next(s, a);
    CommitInLeader(s, a.v, n.term);
    assert KeptAt(s.reigns[n.term].log, n.log, a.log, n.commit);
    forall t | t in s.reigns ensures ReignEvolves(s, s', a.v, t) { }
    if NothingForgotten(s) {
      forall u, t: nat ensures StrictAck(s', u, t) {
        assert StrictAck(s, u, t);
        assert KeptAt(s.reigns[n.term].log, n.log, a.log, Acked(s, a.v, n.term));
      }
    }
  }

  lemma QuietEvolves(s: State, s': State, v: Id)
    requires Quiet(s, s') && v in s.servers && s.servers[v].commit <= |s.servers[v].log|
    requires forall u :: u in s.servers && u != v ==> s'.servers[u] == s.servers[u]
    requires forall u, t :: (u, t) in s'.votes && (u, t) !in s.votes ==> u == v
    requires InvAcks(s)
    ensures Evolves(s, s', v)
  {
    forall t | t in s.reigns ensures ReignEvolves(s, s', v, t) { }
    if NothingForgotten(s) {
      forall u, t: nat ensures StrictAck(s', u, t) {
        assert StrictAck(s, u, t);
        assert (u, t) in s.acked ==> GoodAck(s, u, t);
      }
    }
  }

  lemma GrowingEvolves(s: State, s': State, v: Id)
    requires Growing(s, s', v) && s.servers[v].commit <= |s.servers[v].log| && SentStands(s, s')
    requires forall t :: t in s.reigns ==> t in s'.reigns && s'.reigns[t].leader == s.reigns[t].leader
    requires InvAcks(s) && GoodReign(s', s.servers[v].term)
    ensures Evolves(s, s', v)
  {
    GrowingSteadfast(s, s', v);
  }

  lemma GrowingSteadfast(s: State, s': State, v: Id)
    requires Growing(s, s', v) && s.servers[v].commit <= |s.servers[v].log|
    requires forall t :: t in s.reigns ==> t in s'.reigns && s'.reigns[t].leader == s.reigns[t].leader
    requires InvAcks(s) && GoodReign(s', s.servers[v].term)
    ensures Steadfast(s, s', v)
  {
    forall t | t in s.reigns ensures ReignEvolves(s, s', v, t) { assert Grown(s.reigns, s'.reigns, t); }
    if NothingForgotten(s) {
      forall u, t: nat ensures StrictAck(s', u, t) {
        assert StrictAck(s, u, t);
        assert (u, t) in s.acked ==> GoodAck(s, u, t);
        assert t in s.reigns ==> Grown(s.reigns, s'.reigns, t);
      }
    }
  }
}
