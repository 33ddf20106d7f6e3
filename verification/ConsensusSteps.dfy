/** Every action of the consensus core preserves its invariant. */
module ConsensusSteps {
  import opened JukeboxTypes
  import opened RaftLog
  import opened Consensus

  // ---- Monotone facts ----

  ghost predicate Grown(r: map<nat, Reign>, r': map<nat, Reign>, t: nat)
    requires t in r
  {
    t in r' && Agree(r[t].log, r'[t].log, |r[t].log|) && r[t].commit <= r'[t].commit && r[t].sent <= r'[t].sent
  }

  ghost predicate Grows(r: map<nat, Reign>, r': map<nat, Reign>) {
    forall t {:trigger Grown(r, r', t)} :: t in r ==> Grown(r, r', t)
  }

  lemma GoodLogGrows(r: map<nat, Reign>, r': map<nat, Reign>, log: Log, t: nat)
    requires GoodLog(r, log, t) && Grows(r, r')
    ensures GoodLog(r', log, t)
  {
    forall j: nat | j < |log| ensures RootedAt(r', log, j) {
      assert RootedAt(r, log, j);
      assert Grown(r, r', log[j].term);
    }
  }

  lemma PrefixGood(reigns: map<nat, Reign>, log: Log, t: nat, m: nat)
    requires GoodLog(reigns, log, t) && m <= |log|
    ensures GoodLog(reigns, log[..m], t)
  {
    var p := log[..m];
    forall j: nat | j < |p| ensures RootedAt(reigns, p, j) { assert RootedAt(reigns, log, j); }
  }

  lemma SupersededStays(r: map<nat, Reign>, r': map<nat, Reign>, t: nat, k: nat, upTo: nat, upTo': nat)
    requires Superseded(r, t, k, upTo) && Grows(r, r') && upTo <= upTo'
    ensures Superseded(r', t, k, upTo')
  {
    var u: nat :| u <= upTo && SupersededBy(r, t, k, u);
    assert Grown(r, r', t) && Grown(r, r', u);
    assert SupersededBy(r', t, k, u);
  }

  /** Terms only rise, and acknowledgements of a term only rise at servers not past it. */
  ghost predicate Steady(s: State, s': State) {
    && s.servers.Keys == s'.servers.Keys
    && (forall v :: v in s.servers ==> s.servers[v].term <= s'.servers[v].term)
    && (forall v, t :: v in s.servers ==>
          Acked(s, v, t) == Acked(s', v, t) || (s.servers[v].term <= t && Acked(s, v, t) <= Acked(s', v, t)))
    && Grows(s.reigns, s'.reigns)
  }

  lemma ChoosableBefore(s: State, s': State, t: nat, k: nat)
    requires Steady(s, s') && Choosable(s', t, k)
    requires t in s.reigns && k <= |s.reigns[t].log|
    ensures Choosable(s, t, k)
  {
    assert Grown(s.reigns, s'.reigns, t);
    assert MayAck(s', t, k) <= MayAck(s, t, k);
    SubsetSize(MayAck(s', t, k), MayAck(s, t, k));
  }

  lemma CommittedAfter(s: State, s': State, t: nat, k: nat)
    requires Steady(s, s') && Committed(s, t, k)
    ensures Committed(s', t, k)
  {
    assert Grown(s.reigns, s'.reigns, t);
    assert Ackers(s, t, k) <= Ackers(s', t, k);
    SubsetSize(Ackers(s, t, k), Ackers(s', t, k));
  }

  lemma CommittedChoosable(s: State, t: nat, k: nat)
    requires Committed(s, t, k)
    ensures Choosable(s, t, k)
  {
    assert Ackers(s, t, k) <= MayAck(s, t, k);
    SubsetSize(Ackers(s, t, k), MayAck(s, t, k));
  }

  // ---- Steps that leave every log, reign and acknowledgement alone ----

  /** Terms rise and votes are added, nothing else that the completeness argument reads. */
  ghost predicate Quiet(s: State, s': State) {
    && s'.reigns == s.reigns && s'.acked == s.acked
    && s.servers.Keys == s'.servers.Keys
    && (forall v :: v in s.servers ==>
          s.servers[v].term <= s'.servers[v].term && s.servers[v].log == s'.servers[v].log)
    && (forall v, t :: (v, t) in s.votes ==> (v, t) in s'.votes && s'.votes[(v, t)] == s.votes[(v, t)])
  }

  lemma QuietSteady(s: State, s': State)
    requires Quiet(s, s')
    ensures Steady(s, s')
  {
  }

  lemma QuietRetain(s: State, s': State)
    requires Quiet(s, s') && InvRetain(s) && InvComplete(s)
    ensures InvRetain(s') && InvComplete(s')
  {
    QuietSteady(s, s');
    forall v, t: nat, k: nat | v in s'.servers ensures Retained(s', v, t, k) {
      assert Retained(s, v, t, k);
      if Choosable(s', t, k) { ChoosableBefore(s, s', t, k); }
      if Superseded(s.reigns, t, k, s.servers[v].term) {
        SupersededStays(s.reigns, s'.reigns, t, k, s.servers[v].term, s'.servers[v].term);
      }
    }
    forall t: nat, u: nat, k: nat | u in s'.reigns ensures Complete(s', t, u, k) {
      assert Complete(s, t, u, k);
      if Choosable(s', t, k) { ChoosableBefore(s, s', t, k); }
    }
  }

  lemma QuietReigns(s: State, s': State)
    requires Quiet(s, s') && InvReigns(s) && InvVotes(s) && InvAnnounced(s)
    ensures InvReigns(s') && InvAnnounced(s')
  {
    QuietSteady(s, s');
    forall t | t in s'.reigns ensures GoodReign(s', t) {
      assert GoodReign(s, t);
      assert GoodVote(s, s.reigns[t].leader, t);
    }
    forall t | t in s'.reigns ensures Announced(s', t) {
      assert Announced(s, t);
      var r := s.reigns[t];
      if r.commit > 0 { CommittedAfter(s, s', r.root, s.reigns[r.root].commit); }
    }
  }

  /** Votes cast before a quiet step stay good, and so does what servers hold and acknowledged. */
  lemma QuietServers(s: State, s': State)
    requires Quiet(s, s') && InvServers(s) && InvAcks(s)
    ensures InvServers(s') && InvAcks(s')
  {
    forall v | v in s'.servers ensures GoodServer(s', v) { assert GoodServer(s, v); }
    forall v, t | (v, t) in s'.acked ensures GoodAck(s', v, t) { assert GoodAck(s, v, t); }
  }

  lemma QuietVotes(s: State, s': State, v: Id, u: nat)
    requires Quiet(s, s') && InvVotes(s) && InvClaims(s) && InvVoteRetain(s) && (v, u) in s.votes
    ensures GoodVote(s', v, u) && GoodClaim(s', v, u)
    ensures forall t: nat, k: nat {:trigger VoteRetained(s', v, u, t, k)} :: VoteRetained(s', v, u, t, k)
  {
    QuietSteady(s, s');
    assert GoodVote(s, v, u);
    assert GoodVote(s, s.votes[(v, u)].cand, u);
    assert GoodClaim(s, v, u);
    forall t: nat, k: nat ensures VoteRetained(s', v, u, t, k) {
      assert VoteRetained(s, v, u, t, k);
      if Choosable(s', t, k) { ChoosableBefore(s, s', t, k); }
    }
  }

  ghost predicate NewVoteOk(s': State, v: Id, u: nat)
    requires (v, u) in s'.votes
  {
    && GoodVote(s', v, u) && GoodClaim(s', v, u)
    && (forall t: nat, k: nat {:trigger VoteRetained(s', v, u, t, k)} :: VoteRetained(s', v, u, t, k))
  }

  lemma QuietInv(s: State, s': State)
    requires Inv(s) && Quiet(s, s')
    requires forall v, u {:trigger NewVoteOk(s', v, u)} :: (v, u) in s'.votes && (v, u) !in s.votes ==> NewVoteOk(s', v, u)
    requires InvCampaigns(s') && InvCommit(s')
    ensures Inv(s')
  {
    QuietServers(s, s');
    QuietRetain(s, s');
    QuietReigns(s, s');
    forall v, u | (v, u) in s'.votes ensures NewVoteOk(s', v, u) {
      if (v, u) in s.votes { QuietVotes(s, s', v, u); }
    }
    forall v, u | (v, u) in s'.votes ensures GoodVote(s', v, u) { assert NewVoteOk(s', v, u); }
    forall v, u | (v, u) in s'.votes ensures GoodClaim(s', v, u) { assert NewVoteOk(s', v, u); }
    forall v, u: nat, t: nat, k: nat | (v, u) in s'.votes ensures VoteRetained(s', v, u, t, k) { assert NewVoteOk(s', v, u); }
  }

  lemma QuietCampaigns(s: State, s': State, v: Id, c: Campaign)
    requires Quiet(s, s') && v in s.servers && GoodCampaign(s, v, c)
    ensures GoodCampaign(s', v, c)
  {
  }

  /** No new campaign, no higher commit index. */
  lemma CarryOver(s: State, s': State)
    requires InvCampaigns(s) && InvCommit(s) && Quiet(s, s')
    requires forall v :: v in s.servers ==>
      s'.servers[v].campaigns <= s.servers[v].campaigns && s'.servers[v].commit <= s.servers[v].commit &&
      s'.servers[v].cert == s.servers[v].cert
    ensures InvCampaigns(s') && InvCommit(s')
  {
    forall u, c | u in s'.servers && c in s'.servers[u].campaigns ensures GoodCampaign(s', u, c) {
      assert GoodCampaign(s, u, c);
      QuietCampaigns(s, s', u, c);
    }
    forall u | u in s'.servers ensures GoodCommit(s', u) { assert GoodCommit(s, u); }
  }

  lemma BumpInv(s: State, v: Id, term: nat)
    requires Inv(s) && Enabled(s, Bump(v, term))
    ensures Inv(Next(s, Bump(v, term)))
  {
    var s' := Next(s, Bump(v, term));
    CarryOver(s, s');
    QuietInv(s, s');
  }

  lemma RestartInv(s: State, v: Id, commit: nat)
    requires Inv(s) && Enabled(s, Restart(v, commit))
    ensures Inv(Next(s, Restart(v, commit)))
  {
    var s' := Next(s, Restart(v, commit));
    CarryOver(s, s');
    QuietInv(s, s');
  }

  lemma CampaigningInv(s: State, v: Id)
    requires Inv(s) && Enabled(s, Campaigning(v))
    ensures Inv(Next(s, Campaigning(v)))
  {
    var s' := Next(s, Campaigning(v));
    forall u, c | u in s'.servers && c in s'.servers[u].campaigns ensures GoodCampaign(s', u, c) {
      if u in s.servers && c in s.servers[u].campaigns {
        assert GoodCampaign(s, u, c);
        QuietCampaigns(s, s', u, c);
      } else {
        assert GoodServer(s, v);
      }
    }
    forall u | u in s'.servers ensures GoodCommit(s', u) { assert GoodCommit(s, u); }
    QuietInv(s, s');
  }

  /** Standing in term t + 1 with a campaign of term t: the vote for itself records log and claim. */
  lemma StandInv(s: State, v: Id, c: Campaign)
    requires Inv(s) && Enabled(s, Stand(v, c))
    ensures Inv(Next(s, Stand(v, c)))
  {
    var s' := Next(s, Stand(v, c));
    var n := s.servers[v];
    assert (v, n.term + 1) in s.votes ==> GoodVote(s, v, n.term + 1);
    CarryOver(s, s');
    StandVote(s, v, c);
    QuietInv(s, s');
  }

  lemma StandVote(s: State, v: Id, c: Campaign)
    requires Inv(s) && Enabled(s, Stand(v, c))
    requires Quiet(s, Next(s, Stand(v, c)))
    ensures (v, s.servers[v].term + 1) in Next(s, Stand(v, c)).votes
    ensures NewVoteOk(Next(s, Stand(v, c)), v, s.servers[v].term + 1)
  {
    var s' := Next(s, Stand(v, c));
    var u := s.servers[v].term + 1;
    assert GoodServer(s, v);
    assert GoodCampaign(s, v, c);
    QuietSteady(s, s');
    forall t: nat, k: nat ensures VoteRetained(s', v, u, t, k) {
      assert Retained(s, v, t, k);
      if Choosable(s', t, k) { ChoosableBefore(s, s', t, k); }
      if Superseded(s.reigns, t, k, s.servers[v].term) { SupersededStays(s.reigns, s'.reigns, t, k, s.servers[v].term, u); }
    }
  }

  lemma GrantInv(s: State, v: Id, cand: Id)
    requires Inv(s) && Enabled(s, Grant(v, cand))
    ensures Inv(Next(s, Grant(v, cand)))
  {
    var s' := Next(s, Grant(v, cand));
    CarryOver(s, s');
    GrantVote(s, v, cand);
    QuietInv(s, s');
  }

  lemma GrantVote(s: State, v: Id, cand: Id)
    requires Inv(s) && Enabled(s, Grant(v, cand))
    ensures NewVoteOk(Next(s, Grant(v, cand)), v, s.servers[v].term)
  {
    var s' := Next(s, Grant(v, cand));
    var n := s.servers[v];
    assert GoodServer(s, v);
    assert GoodVote(s, cand, n.term);
    QuietSteady(s, s');
    forall t: nat, k: nat ensures VoteRetained(s', v, n.term, t, k) {
      assert Retained(s, v, t, k);
      if Choosable(s', t, k) { ChoosableBefore(s, s', t, k); }
    }
  }
}
