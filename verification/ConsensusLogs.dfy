/** The actions that change logs: adopting a leader's log, committing, appending, winning. */
module ConsensusLogs {
  import opened JukeboxTypes
  import opened RaftLog
  import opened Consensus
  import opened ConsensusSteps

  // ---- What was announced as committed is in every later leader's log ----

  lemma AnnouncedInLater(s: State, t: nat, u: nat)
    requires Inv(s) && t in s.reigns && u in s.reigns && t <= u
    ensures Agree(s.reigns[t].log, s.reigns[u].log, s.reigns[t].commit)
  {
    assert Announced(s, t);
    var r := s.reigns[t];
    if r.commit > 0 && t < u {
      var k := s.reigns[r.root].commit;
      CommittedChoosable(s, r.root, k);
      assert Complete(s, r.root, u, k);
    }
  }

  lemma CommitInLeader(s: State, v: Id, t: nat)
    requires Inv(s) && v in s.servers && t in s.reigns && s.servers[v].term <= t
    ensures Agree(s.servers[v].log, s.reigns[t].log, s.servers[v].commit)
  {
    assert GoodCommit(s, v);
    if s.servers[v].commit > 0 { AnnouncedInLater(s, s.servers[v].cert, t); }
  }

  // ---- Adopt ----

  lemma AdoptSteady(s: State, a: Action)
    requires a.Adopt? && Enabled(s, a)
    ensures Steady(s, Next(s, a))
  {
  }

  lemma AdoptRetain(s: State, a: Action)
    requires Inv(s) && a.Adopt? && Enabled(s, a)
    ensures InvRetain(Next(s, a)) && InvComplete(Next(s, a))
  {
    var s' := Next(s, a);
    var n := s.servers[a.v];
    AdoptSteady(s, a);
    forall t: nat, u: nat, k: nat | u in s'.reigns ensures Complete(s', t, u, k) {
      assert Complete(s, t, u, k);
      if Choosable(s', t, k) { ChoosableBefore(s, s', t, k); }
    }
    forall v, t: nat, k: nat | v in s'.servers ensures Retained(s', v, t, k) {
      assert Retained(s, v, t, k);
      if Choosable(s', t, k) && k <= Acked(s', v, t) {
        ChoosableBefore(s, s', t, k);
        if v == a.v && k <= Acked(s, v, t) && Agree(s.reigns[t].log, n.log, k) {
          assert GoodAck(s, v, t);
          assert Complete(s, t, n.term, k);
          assert KeptAt(s.reigns[n.term].log, n.log, a.log, k);
        }
      }
    }
  }

  lemma AdoptVotes(s: State, a: Action)
    requires Inv(s) && a.Adopt? && Enabled(s, a)
    ensures InvVotes(Next(s, a)) && InvClaims(Next(s, a)) && InvVoteRetain(Next(s, a))
  {
    var s' := Next(s, a);
    AdoptSteady(s, a);
    forall v, t | (v, t) in s'.votes ensures GoodVote(s', v, t) && GoodClaim(s', v, t) {
      assert GoodVote(s, v, t);
      assert GoodClaim(s, v, t);
    }
    forall v, u: nat, t: nat, k: nat | (v, u) in s'.votes ensures VoteRetained(s', v, u, t, k) {
      assert VoteRetained(s, v, u, t, k);
      assert GoodVote(s, v, u);
      if Choosable(s', t, k) { ChoosableBefore(s, s', t, k); }
    }
  }

  lemma AdoptReigns(s: State, a: Action)
    requires Inv(s) && a.Adopt? && Enabled(s, a)
    ensures InvReigns(Next(s, a)) && InvAnnounced(Next(s, a))
  {
    var s' := Next(s, a);
    AdoptSteady(s, a);
    forall t | t in s'.reigns ensures GoodReign(s', t) { assert GoodReign(s, t); }
    forall t | t in s'.reigns ensures Announced(s', t) {
      assert Announced(s, t);
      var r := s.reigns[t];
      if r.commit > 0 { CommittedAfter(s, s', r.root, s.reigns[r.root].commit); }
    }
  }

  lemma AdoptCampaigns(s: State, a: Action)
    requires Inv(s) && a.Adopt? && Enabled(s, a)
    ensures InvCampaigns(Next(s, a))
  {
    var s' := Next(s, a);
    var n := s.servers[a.v];
    forall v, c | v in s'.servers && c in s'.servers[v].campaigns ensures GoodCampaign(s', v, c) {
      assert GoodCampaign(s, v, c);
      if v == a.v && c.base == n.term {
        var leader := s.reigns[n.term].log;
        forall k: nat ensures KeptAt(leader, c.log, a.log, k) {
          assert KeptAt(leader, c.log, n.log, k);
          assert KeptAt(leader, n.log, a.log, k);
        }
      }
    }
  }

  lemma AdoptInv(s: State, a: Action)
    requires Inv(s) && a.Adopt? && Enabled(s, a)
    ensures Inv(Next(s, a))
  {
    var s' := Next(s, a);
    var n := s.servers[a.v];
    AdoptRetain(s, a);
    AdoptVotes(s, a);
    AdoptReigns(s, a);
    AdoptCampaigns(s, a);
    forall v | v in s'.servers ensures GoodServer(s', v) { assert GoodServer(s, v); }
    forall v, t | (v, t) in s'.acked ensures GoodAck(s', v, t) {
      assert (v, t) in s.acked ==> GoodAck(s, v, t);
      if v == a.v && t == n.term { assert KeptAt(s.reigns[t].log, n.log, a.log, Acked(s, v, t)); }
    }
    forall v | v in s'.servers ensures GoodCommit(s', v) {
      assert GoodCommit(s, v);
      if v == a.v {
        CommitInLeader(s, v, n.term);
        assert KeptAt(s.reigns[n.term].log, n.log, a.log, n.commit);
      }
    }
  }

  // ---- Steps in which a reign begins, grows or announces a commit ----

  /** A reign's new entries, if any, are of its own term. */
  ghost predicate OwnTail(r: map<nat, Reign>, r': map<nat, Reign>, t: nat)
    requires t in r && t in r'
  {
    forall j :: |r[t].log| <= j < |r'[t].log| ==> r'[t].log[j].term == t
  }

  /** Server v, leading its term in s', extends its log and its reign; the rest stands still. */
  ghost predicate Growing(s: State, s': State, v: Id) {
    && v in s.servers && s'.votes == s.votes
    && s'.servers.Keys == s.servers.Keys
    && (forall u :: u in s.servers && u != v ==> s'.servers[u] == s.servers[u])
    && s'.servers[v].term == s.servers[v].term && s'.servers[v].campaigns == s.servers[v].campaigns
    && Agree(s.servers[v].log, s'.servers[v].log, |s.servers[v].log|)
    && s.servers[v].term in s'.reigns && s'.reigns[s.servers[v].term].leader == v
    && s'.reigns[s.servers[v].term].log == s'.servers[v].log
    && Grows(s.reigns, s'.reigns)
    && (forall t {:trigger OwnTail(s.reigns, s'.reigns, t)} :: t in s.reigns && t in s'.reigns ==> OwnTail(s.reigns, s'.reigns, t))
    && (forall t :: t in s'.reigns && t != s.servers[v].term ==> t in s.reigns && s'.reigns[t] == s.reigns[t])
    && (forall u, t: nat :: (u, t) != (v, s.servers[v].term) ==>
          ((u, t) in s'.acked <==> (u, t) in s.acked) && Acked(s', u, t) == Acked(s, u, t))
    && Acked(s, v, s.servers[v].term) <= Acked(s', v, s.servers[v].term)
  }

  lemma GrowingSteady(s: State, s': State, v: Id)
    requires Growing(s, s', v)
    ensures Steady(s, s')
  {
  }

  lemma GrowKeeps(r: map<nat, Reign>, r': map<nat, Reign>, t: nat, claim: Log, log: Log)
    requires Keeps(r, t, claim, log) && Rooted(r, claim) && Grows(r, r')
    requires t in r && t in r' ==> OwnTail(r, r', t)
    ensures Keeps(r', t, claim, log)
  {
    if t in r {
      assert Grown(r, r', t);
      forall k: nat ensures KeptAt(r'[t].log, claim, log, k) {
        assert KeptAt(r[t].log, claim, log, k);
        assert |r[t].log| < |claim| ==> RootedAt(r, claim, |r[t].log|);
      }
    } else if t in r' {
      forall k: nat ensures KeptAt(r'[t].log, claim, log, k) { }
    }
  }

  lemma GrowingVotes(s: State, s': State, v: Id)
    requires Inv(s) && Growing(s, s', v)
    ensures InvVotes(s') && InvClaims(s')
  {
    forall u, t | (u, t) in s'.votes ensures GoodVote(s', u, t) {
      assert GoodVote(s, u, t);
      GoodLogGrows(s.reigns, s'.reigns, s.votes[(u, t)].log, t);
    }
    forall u, t | (u, t) in s'.votes ensures GoodClaim(s', u, t) {
      assert GoodClaim(s, u, t);
      var b := s.votes[(u, t)];
      if u == b.cand && u in s.servers && 0 < t {
        GoodLogGrows(s.reigns, s'.reigns, b.claim, t - 1);
        var w: nat := t - 1;
        assert w in s.reigns ==> Grown(s.reigns, s'.reigns, w);
        assert w in s.reigns ==> OwnTail(s.reigns, s'.reigns, w);
        assert t in s.reigns ==> Grown(s.reigns, s'.reigns, t);
        GrowKeeps(s.reigns, s'.reigns, w, b.claim, b.log);
      }
    }
  }

  lemma GrowingCampaigns(s: State, s': State, v: Id)
    requires Inv(s) && Growing(s, s', v)
    ensures InvCampaigns(s')
  {
    forall u, c | u in s'.servers && c in s'.servers[u].campaigns ensures GoodCampaign(s', u, c) {
      assert GoodCampaign(s, u, c);
      GoodLogGrows(s.reigns, s'.reigns, c.log, c.base);
      if c.base == s.servers[u].term {
        assert c.base in s.reigns ==> Grown(s.reigns, s'.reigns, c.base);
        assert c.base in s.reigns ==> OwnTail(s.reigns, s'.reigns, c.base);
        GrowKeeps(s.reigns, s'.reigns, c.base, c.log, s.servers[u].log);
        if u == v {
          forall k: nat ensures KeptAt(s'.reigns[c.base].log, c.log, s'.servers[v].log, k) { }
        }
      }
    }
  }

  /** Entries that only v can have acknowledged are not choosable once a later leader exists. */
  lemma FreshUnchoosable(s: State, s': State, v: Id, u: nat, k: nat)
    requires Inv(s) && Growing(s, s', v) && u in s.reigns && s.servers[v].term < u
    requires forall w :: w in s.servers && w != v ==> Acked(s, w, s.servers[v].term) < k
    ensures !Choosable(s', s.servers[v].term, k)
  {
    var t := s.servers[v].term;
    assert GoodReign(s, u);
    forall w | w in s.reigns[u].voters ensures s.servers[w].term >= u { assert GoodVote(s, w, u); }
    if |MayAck(s', t, k)| >= Quorum(s') {
      var w := QuorumsMeet(s.servers.Keys, MayAck(s', t, k), s.reigns[u].voters);
    }
  }

  lemma AckedBelow(s: State, v: Id, w: Id, k: nat)
    requires Inv(s) && v in s.servers && w in s.servers
    requires s.servers[v].term in s.reigns ==> k > |s.reigns[s.servers[v].term].log|
    requires k > 0
    ensures Acked(s, w, s.servers[v].term) < k
  {
    assert (w, s.servers[v].term) in s.acked ==> GoodAck(s, w, s.servers[v].term);
  }

  ghost predicate Fresh(s: State, t: nat, k: nat) {
    t !in s.reigns || k > |s.reigns[t].log|
  }

  lemma GrowingRetain(s: State, s': State, v: Id)
    requires Inv(s) && Growing(s, s', v)
    ensures InvRetain(s') && InvVoteRetain(s')
  {
    GrowingSteady(s, s', v);
    forall u, t: nat, k: nat | u in s'.servers ensures Retained(s', u, t, k) {
      assert Retained(s, u, t, k);
      if Choosable(s', t, k) && k <= Acked(s', u, t) {
        if Fresh(s, t, k) {
          AckedBelow(s, v, u, k);
        } else {
          assert Grown(s.reigns, s'.reigns, t);
          ChoosableBefore(s, s', t, k);
        }
      }
      if Superseded(s.reigns, t, k, s.servers[u].term) {
        SupersededStays(s.reigns, s'.reigns, t, k, s.servers[u].term, s'.servers[u].term);
      }
    }
    forall u, w: nat, t: nat, k: nat | (u, w) in s'.votes ensures VoteRetained(s', u, w, t, k) {
      assert VoteRetained(s, u, w, t, k);
      assert GoodVote(s, u, w);
      if t < w && Choosable(s', t, k) && k <= Acked(s', u, t) {
        if Fresh(s, t, k) {
          AckedBelow(s, v, u, k);
        } else {
          assert Grown(s.reigns, s'.reigns, t);
          ChoosableBefore(s, s', t, k);
        }
      }
      if Superseded(s.reigns, t, k, w) { SupersededStays(s.reigns, s'.reigns, t, k, w, w); }
    }
  }

  lemma GrowingComplete(s: State, s': State, v: Id, t: nat, u: nat, k: nat)
    requires Inv(s) && Growing(s, s', v) && u in s.reigns
    ensures u in s'.reigns && Complete(s', t, u, k)
  {
    GrowingSteady(s, s', v);
    assert Complete(s, t, u, k);
    assert Grown(s.reigns, s'.reigns, u);
    if t < u && Choosable(s', t, k) {
      if Fresh(s, t, k) {
        forall w | w in s.servers && w != v ensures Acked(s, w, s.servers[v].term) < k { AckedBelow(s, v, w, k); }
        FreshUnchoosable(s, s', v, u, k);
      } else {
        assert Grown(s.reigns, s'.reigns, t);
        ChoosableBefore(s, s', t, k);
      }
    }
  }

  lemma ReignGrows(s: State, s': State, v: Id, t: nat)
    requires Inv(s) && Growing(s, s', v) && t in s'.reigns && t != s.servers[v].term
    ensures GoodReign(s', t)
  {
    assert GoodReign(s, t);
    GoodLogGrows(s.reigns, s'.reigns, s.reigns[t].log, t);
  }

  lemma GrowingRest(s: State, s': State, v: Id)
    requires Inv(s) && Growing(s, s', v)
    requires GoodServer(s', v) && GoodReign(s', s.servers[v].term)
    requires (v, s.servers[v].term) in s'.acked ==> GoodAck(s', v, s.servers[v].term)
    ensures InvServers(s') && InvReigns(s') && InvAcks(s')
  {
    forall u | u in s'.servers ensures GoodServer(s', u) {
      assert GoodServer(s, u);
      if u != v { GoodLogGrows(s.reigns, s'.reigns, s.servers[u].log, s.servers[u].term); }
    }
    forall t | t in s'.reigns ensures GoodReign(s', t) {
      if t != s.servers[v].term { ReignGrows(s, s', v, t); }
    }
    GrowingAcks(s, s', v);
  }

  lemma GrowingAcks(s: State, s': State, v: Id)
    requires Inv(s) && Growing(s, s', v)
    requires (v, s.servers[v].term) in s'.acked ==> GoodAck(s', v, s.servers[v].term)
    ensures InvAcks(s')
  {
    forall u, t | (u, t) in s'.acked ensures GoodAck(s', u, t) {
      if (u, t) != (v, s.servers[v].term) {
        assert GoodAck(s, u, t);
        assert Grown(s.reigns, s'.reigns, t);
      }
    }
  }

  // ---- CommitTo ----

  lemma CommitToInv(s: State, v: Id, k: nat)
    requires Inv(s) && Enabled(s, CommitTo(v, k))
    ensures Inv(Next(s, CommitTo(v, k)))
  {
    var s' := Next(s, CommitTo(v, k));
    CommitToGrows(s, v, k);
    GrowingVotes(s, s', v);
    GrowingCampaigns(s, s', v);
    GrowingRetain(s, s', v);
    GrowingRest(s, s', v);
    forall t: nat, u: nat, j: nat | u in s'.reigns ensures Complete(s', t, u, j) { GrowingComplete(s, s', v, t, u, j); }
    CommitToAnnounced(s, v, k);
  }

  lemma CommitToGrows(s: State, v: Id, k: nat)
    requires Inv(s) && Enabled(s, CommitTo(v, k))
    ensures var s' := Next(s, CommitTo(v, k));
      && Growing(s, s', v) && GoodServer(s', v) && GoodReign(s', s.servers[v].term)
      && ((v, s.servers[v].term) in s'.acked ==> GoodAck(s', v, s.servers[v].term))
  {
    var s' := Next(s, CommitTo(v, k));
    var t := s.servers[v].term;
    assert GoodReign(s, t);
    assert GoodServer(s, v);
    assert (v, t) in s.acked ==> GoodAck(s, v, t);
    assert Grows(s.reigns, s'.reigns);
    GoodLogGrows(s.reigns, s'.reigns, s.servers[v].log, t);
  }

  lemma CommitToAnnounced(s: State, v: Id, k: nat)
    requires Inv(s) && Enabled(s, CommitTo(v, k)) && Growing(s, Next(s, CommitTo(v, k)), v)
    ensures InvAnnounced(Next(s, CommitTo(v, k))) && InvCommit(Next(s, CommitTo(v, k)))
  {
    var s' := Next(s, CommitTo(v, k));
    GrowingSteady(s, s', v);
    CommittedAfter(s, s', s.servers[v].term, k);
    forall t | t in s'.reigns ensures Announced(s', t) {
      assert Announced(s, t);
      var r := s.reigns[t];
      if r.commit > 0 { CommittedAfter(s, s', r.root, s.reigns[r.root].commit); }
    }
    forall u | u in s'.servers ensures GoodCommit(s', u) { assert GoodCommit(s, u); }
  }

  // ---- Extend ----

  /** A log good for its own term stays so under one more entry of that term by its leader. */
  lemma OneMoreEntry(r: map<nat, Reign>, r': map<nat, Reign>, log: Log, t: nat, payload: Payload)
    requires GoodLog(r, log, t) && Grows(r, r') && 0 < t && t in r'
    requires r'[t].log == log + [Entry(t, |log| + 1, payload)]
    ensures GoodLog(r', r'[t].log, t)
  {
    var log' := r'[t].log;
    GoodLogGrows(r, r', log, t);
    forall j: nat | j < |log'| ensures RootedAt(r', log', j) {
      if j < |log| { assert RootedAt(r', log, j); }
    }
  }

  lemma ExtendGrows(s: State, v: Id, p: Payload)
    requires Inv(s) && Enabled(s, Extend(v, p))
    ensures var s' := Next(s, Extend(v, p));
      && Growing(s, s', v) && GoodServer(s', v) && GoodReign(s', s.servers[v].term)
      && GoodAck(s', v, s.servers[v].term)
  {
    var s' := Next(s, Extend(v, p));
    var t := s.servers[v].term;
    assert GoodReign(s, t);
    assert GoodServer(s, v);
    assert Grows(s.reigns, s'.reigns);
    OneMoreEntry(s.reigns, s'.reigns, s.servers[v].log, t, p);
  }

  lemma ExtendInv(s: State, v: Id, p: Payload)
    requires Inv(s) && Enabled(s, Extend(v, p))
    ensures Inv(Next(s, Extend(v, p)))
  {
    var s' := Next(s, Extend(v, p));
    ExtendGrows(s, v, p);
    GrowingVotes(s, s', v);
    GrowingCampaigns(s, s', v);
    GrowingRetain(s, s', v);
    GrowingRest(s, s', v);
    forall t: nat, u: nat, k: nat | u in s'.reigns ensures Complete(s', t, u, k) { GrowingComplete(s, s', v, t, u, k); }
    ExtendAnnounced(s, v, p);
  }

  lemma AnnouncedGrows(s: State, s': State, t: nat)
    requires Steady(s, s') && t in s.reigns && Announced(s, t)
    requires forall u :: u in s.reigns ==> u in s'.reigns && s'.reigns[u].commit == s.reigns[u].commit && s'.reigns[u].root == s.reigns[u].root
    requires t in s'.reigns ==> s'.reigns[t].sent <= s'.reigns[t].commit
    ensures Announced(s', t)
  {
    var r := s.reigns[t];
    assert Grown(s.reigns, s'.reigns, t);
    if r.commit > 0 {
      assert Grown(s.reigns, s'.reigns, r.root);
      CommittedAfter(s, s', r.root, s.reigns[r.root].commit);
    }
  }

  lemma CertifiedGrows(s: State, s': State, log: Log, log': Log, k: nat, cert: nat)
    requires Certified(s, log, k, cert) && Grows(s.reigns, s'.reigns) && Agree(log, log', |log|)
    requires forall u :: u in s.reigns ==> u in s'.reigns && s'.reigns[u].commit >= s.reigns[u].commit
    ensures Certified(s', log', k, cert)
  {
    assert cert in s.reigns ==> Grown(s.reigns, s'.reigns, cert);
  }

  lemma ExtendAnnounced(s: State, v: Id, p: Payload)
    requires Inv(s) && Enabled(s, Extend(v, p)) && Growing(s, Next(s, Extend(v, p)), v)
    ensures InvAnnounced(Next(s, Extend(v, p))) && InvCommit(Next(s, Extend(v, p)))
  {
    var s' := Next(s, Extend(v, p));
    GrowingSteady(s, s', v);
    assert GoodReign(s, s.servers[v].term);
    forall t | t in s'.reigns ensures Announced(s', t) {
      assert Announced(s, t);
      AnnouncedGrows(s, s', t);
    }
    forall u | u in s'.servers ensures GoodCommit(s', u) {
      assert GoodCommit(s, u);
      CertifiedGrows(s, s', s.servers[u].log, s'.servers[u].log, s.servers[u].commit, s.servers[u].cert);
    }
  }

  // ---- Win ----

  /** Election safety: no other server can have led the term, since two quorums of votes meet. */
  lemma NoOtherLeader(s: State, v: Id, voters: set<Id>, p: Payload)
    requires Inv(s) && Enabled(s, Win(v, voters, p))
    ensures s.servers[v].term !in s.reigns
  {
    var t := s.servers[v].term;
    assert t in s.reigns ==> GoodReign(s, t);
    if t in s.reigns {
      var u := QuorumsMeet(s.servers.Keys, voters, s.reigns[t].voters);
    }
  }

  /** Of two logs, the one that is at least as up-to-date holds every choosable entry the other holds. */
  lemma UpToDateHolds(s: State, claim: Log, log: Log, bound: nat, t: nat, k: nat)
    requires Inv(s) && GoodLog(s.reigns, claim, bound) && WellFormed(log) && Rooted(s.reigns, log)
    requires UpToDate(|claim|, LastTerm(claim), log)
    requires Choosable(s, t, k) && Agree(s.reigns[t].log, log, k)
    ensures Agree(s.reigns[t].log, claim, k)
  {
    var m := LastTerm(claim);
    assert log[k - 1].term == t;
    assert t <= LastTerm(log) <= m;
    assert |claim| > 0 by { assert GoodReign(s, t); }
    assert RootedAt(s.reigns, claim, |claim| - 1);
    assert RootedAt(s.reigns, log, |log| - 1);
    if LastTerm(log) < m {
      assert Complete(s, t, m, k);
      assert GoodReign(s, m);
    }
  }

  ghost predicate CommitsUpTo(reigns: map<nat, Reign>, b: nat) {
    forall t :: t in reigns ==> reigns[t].commit <= b
  }

  lemma HasHighestCommit(reigns: map<nat, Reign>)
    ensures exists b: nat :: CommitsUpTo(reigns, b)
    decreases |reigns|
  {
    if reigns == map[] {
      assert CommitsUpTo(reigns, 0);
    } else {
      var t :| t in reigns;
      var rest := map u | u in reigns && u != t :: reigns[u];
      assert rest.Keys == reigns.Keys - {t};
      assert |rest.Keys| < |reigns.Keys|;
      HasHighestCommit(rest);
      var b: nat :| CommitsUpTo(rest, b);
      forall u | u in reigns ensures reigns[u].commit <= Max(b, reigns[t].commit) { assert u != t ==> u in rest; }
      assert CommitsUpTo(reigns, Max(b, reigns[t].commit));
    }
  }

  /** Leader completeness: a winner's log holds whatever an earlier term may still commit. */
  lemma WinnerComplete(s: State, v: Id, voters: set<Id>, p: Payload, t: nat, k: nat)
    requires Inv(s) && Enabled(s, Win(v, voters, p)) && s.servers[v].term !in s.reigns
    requires t < s.servers[v].term && Choosable(s, t, k)
    ensures Agree(s.reigns[t].log, s.servers[v].log, k)
  {
    HasHighestCommit(s.reigns);
    var b: nat :| CommitsUpTo(s.reigns, b);
    WinnerCompleteUpTo(s, v, voters, p, t, k, b);
  }

  /** By induction on how far k lies below the highest commit: a voter that has lost k knows of a later commit. */
  lemma {:induction false} WinnerCompleteUpTo(s: State, v: Id, voters: set<Id>, p: Payload, t: nat, k: nat, b: nat)
    requires Inv(s) && Enabled(s, Win(v, voters, p)) && s.servers[v].term !in s.reigns
    requires t < s.servers[v].term && Choosable(s, t, k) && CommitsUpTo(s.reigns, b)
    ensures Agree(s.reigns[t].log, s.servers[v].log, k)
    decreases if k < b then b - k else 0
  {
    var u := s.servers[v].term;
    forall w | w in voters ensures s.servers[w].term >= u { assert GoodVote(s, w, u); }
    var w := QuorumsMeet(s.servers.Keys, MayAck(s, t, k), voters);
    assert VoteRetained(s, w, u, t, k);
    assert GoodVote(s, w, u);
    if Agree(s.reigns[t].log, s.votes[(w, u)].log, k) {
      WinnerHolds(s, v, w, t, k);
    } else {
      var x: nat :| x <= u && SupersededBy(s.reigns, t, k, x);
      assert Announced(s, x);
      var r := s.reigns[x].root;
      CommittedChoosable(s, r, s.reigns[r].commit);
      WinnerCompleteUpTo(s, v, voters, p, r, s.reigns[r].commit, b);
    }
  }

  /** A winner holds the choosable entries that one of its voters held when it voted. */
  lemma WinnerHolds(s: State, v: Id, w: Id, t: nat, k: nat)
    requires Inv(s) && v in s.servers && s.servers[v].term !in s.reigns && t < s.servers[v].term && Choosable(s, t, k)
    requires (w, s.servers[v].term) in s.votes && s.votes[(w, s.servers[v].term)].cand == v
    requires Agree(s.reigns[t].log, s.votes[(w, s.servers[v].term)].log, k)
    ensures Agree(s.reigns[t].log, s.servers[v].log, k)
  {
    var u := s.servers[v].term;
    assert GoodVote(s, w, u) && GoodVote(s, v, u) && GoodClaim(s, v, u);
    if w != v {
      var b := s.votes[(v, u)];
      UpToDateHolds(s, b.claim, s.votes[(w, u)].log, u - 1, t, k);
      ClaimKept(s, b.claim, b.log, u - 1, t, k);
    }
  }

  /** What the claimed log holds of a choosable entry, the log itself still holds. */
  lemma ClaimKept(s: State, claim: Log, log: Log, base: nat, t: nat, k: nat)
    requires Inv(s) && Keeps(s.reigns, base, claim, log)
    requires t <= base && Choosable(s, t, k) && Agree(s.reigns[t].log, claim, k)
    ensures Agree(s.reigns[t].log, log, k)
  {
    if base in s.reigns {
      assert Complete(s, t, base, k);
      assert KeptAt(s.reigns[base].log, claim, log, k);
    }
  }

  lemma WinGrows(s: State, v: Id, voters: set<Id>, p: Payload)
    requires Inv(s) && Enabled(s, Win(v, voters, p)) && s.servers[v].term !in s.reigns
    ensures var s' := Next(s, Win(v, voters, p));
      && Growing(s, s', v) && GoodServer(s', v) && GoodReign(s', s.servers[v].term)
      && GoodAck(s', v, s.servers[v].term)
  {
    var s' := Next(s, Win(v, voters, p));
    var t := s.servers[v].term;
    assert GoodServer(s, v);
    assert (v, t) in s.acked ==> GoodAck(s, v, t);
    assert Grows(s.reigns, s'.reigns);
    var w := QuorumsMeet(s.servers.Keys, voters, voters);
    assert GoodVote(s, w, t);
    OneMoreEntry(s.reigns, s'.reigns, s.servers[v].log, t, p);
  }

  lemma WinAnnounced(s: State, v: Id, voters: set<Id>, p: Payload)
    requires Inv(s) && Enabled(s, Win(v, voters, p)) && s.servers[v].term !in s.reigns
    requires Growing(s, Next(s, Win(v, voters, p)), v)
    ensures InvAnnounced(Next(s, Win(v, voters, p)))
  {
    var s' := Next(s, Win(v, voters, p));
    var n := s.servers[v];
    GrowingSteady(s, s', v);
    forall t | t in s'.reigns ensures Announced(s', t) {
      if t in s.reigns {
        assert Announced(s, t);
        AnnouncedGrows(s, s', t);
      } else {
        assert GoodCommit(s, v);
        if n.commit > 0 {
          assert Announced(s, n.cert);
          var root := s.reigns[n.cert].root;
          CommittedAfter(s, s', root, s.reigns[root].commit);
        }
      }
    }
  }

  lemma WinCommit(s: State, v: Id, voters: set<Id>, p: Payload)
    requires Inv(s) && Enabled(s, Win(v, voters, p)) && s.servers[v].term !in s.reigns
    requires Growing(s, Next(s, Win(v, voters, p)), v)
    ensures InvCommit(Next(s, Win(v, voters, p)))
  {
    var s' := Next(s, Win(v, voters, p));
    forall u | u in s'.servers ensures GoodCommit(s', u) {
      assert GoodCommit(s, u);
      if u != v {
        CertifiedGrows(s, s', s.servers[u].log, s'.servers[u].log, s.servers[u].commit, s.servers[u].cert);
      }
    }
  }

  lemma WinInv(s: State, v: Id, voters: set<Id>, p: Payload)
    requires Inv(s) && Enabled(s, Win(v, voters, p))
    ensures Inv(Next(s, Win(v, voters, p)))
  {
    var s' := Next(s, Win(v, voters, p));
    var t0 := s.servers[v].term;
    NoOtherLeader(s, v, voters, p);
    WinGrows(s, v, voters, p);
    GrowingVotes(s, s', v);
    GrowingCampaigns(s, s', v);
    GrowingRetain(s, s', v);
    GrowingRest(s, s', v);
    GrowingSteady(s, s', v);
    forall t: nat, u: nat, k: nat | u in s'.reigns ensures Complete(s', t, u, k) {
      if u in s.reigns {
        GrowingComplete(s, s', v, t, u, k);
      } else if t < u && Choosable(s', t, k) {
        ChoosableBefore(s, s', t, k);
        WinnerComplete(s, v, voters, p, t, k);
      }
    }
    WinAnnounced(s, v, voters, p);
    WinCommit(s, v, voters, p);
  }

  // ---- Ship ----

  lemma ShipGrows(s: State, v: Id, k: nat)
    requires Inv(s) && Enabled(s, Ship(v, k))
    ensures var s' := Next(s, Ship(v, k));
      && Growing(s, s', v) && GoodServer(s', v) && GoodReign(s', s.servers[v].term)
      && ((v, s.servers[v].term) in s'.acked ==> GoodAck(s', v, s.servers[v].term))
  {
    var s' := Next(s, Ship(v, k));
    var t := s.servers[v].term;
    assert GoodReign(s, t);
    assert GoodServer(s, v);
    assert (v, t) in s.acked ==> GoodAck(s, v, t);
    assert Grows(s.reigns, s'.reigns);
    GoodLogGrows(s.reigns, s'.reigns, s.servers[v].log, t);
  }

  lemma ShipInv(s: State, v: Id, k: nat)
    requires Inv(s) && Enabled(s, Ship(v, k))
    ensures Inv(Next(s, Ship(v, k)))
  {
    var s' := Next(s, Ship(v, k));
    ShipGrows(s, v, k);
    GrowingVotes(s, s', v);
    GrowingCampaigns(s, s', v);
    GrowingRetain(s, s', v);
    GrowingRest(s, s', v);
    GrowingSteady(s, s', v);
    forall t: nat, u: nat, j: nat | u in s'.reigns ensures Complete(s', t, u, j) { GrowingComplete(s, s', v, t, u, j); }
    forall t | t in s'.reigns ensures Announced(s', t) {
      assert Announced(s, t);
      AnnouncedGrows(s, s', t);
    }
    forall u | u in s'.servers ensures GoodCommit(s', u) { assert GoodCommit(s, u); }
  }

  // ---- Forget ----

  lemma ForgetSteady(s: State, v: Id, k: nat)
    requires Enabled(s, Forget(v, k))
    ensures Steady(s, Next(s, Forget(v, k)))
  {
  }

  /** What the server loses of its acknowledgements its leader has announced as committed. */
  lemma ForgetRetain(s: State, v: Id, k: nat)
    requires Inv(s) && Enabled(s, Forget(v, k))
    ensures InvRetain(Next(s, Forget(v, k)))
  {
    var s' := Next(s, Forget(v, k));
    var n := s.servers[v];
    ForgetSteady(s, v, k);
    forall u, t: nat, j: nat | u in s'.servers ensures Retained(s', u, t, j) {
      assert Retained(s, u, t, j);
      if Choosable(s', t, j) && j <= Acked(s', u, t) {
        ChoosableBefore(s, s', t, j);
        if u == v && Agree(s.reigns[t].log, n.log, j) { ForgottenSuperseded(s, v, k, t, j); }
      }
    }
  }

  lemma ForgottenSuperseded(s: State, v: Id, k: nat, t: nat, j: nat)
    requires Inv(s) && Enabled(s, Forget(v, k)) && Choosable(s, t, j) && j <= Acked(s, v, t)
    requires Agree(s.reigns[t].log, s.servers[v].log, j)
    ensures Superseded(s.reigns, t, j, s.servers[v].term)
  {
    var u := s.servers[v].term;
    assert GoodAck(s, v, t);
    assert Complete(s, t, u, j) && Announced(s, u);
    assert SupersededBy(s.reigns, t, j, u);
  }

  lemma ForgetServers(s: State, v: Id, k: nat)
    requires Inv(s) && Enabled(s, Forget(v, k))
    ensures InvServers(Next(s, Forget(v, k))) && InvReigns(Next(s, Forget(v, k)))
  {
    var s' := Next(s, Forget(v, k));
    var n := s.servers[v];
    forall u | u in s'.servers ensures GoodServer(s', u) {
      assert GoodServer(s, u);
      if u == v { PrefixGood(s.reigns, n.log, n.term, k); }
    }
    forall t | t in s'.reigns ensures GoodReign(s', t) { ForgetReign(s, v, k, t); }
  }

  /** The server that forgets leads no term it is in: a leader's log is its reign's. */
  lemma ForgetReign(s: State, v: Id, k: nat, t: nat)
    requires Inv(s) && Enabled(s, Forget(v, k)) && t in s.reigns
    ensures GoodReign(Next(s, Forget(v, k)), t)
  {
    assert GoodReign(s, t) && Announced(s, t);
  }

  lemma ForgetAcks(s: State, v: Id, k: nat)
    requires Inv(s) && Enabled(s, Forget(v, k))
    ensures InvAcks(Next(s, Forget(v, k)))
  {
    var s' := Next(s, Forget(v, k));
    forall u, t | (u, t) in s'.acked ensures GoodAck(s', u, t) { assert GoodAck(s, u, t); }
  }

  lemma ForgetCommits(s: State, v: Id, k: nat)
    requires Inv(s) && Enabled(s, Forget(v, k))
    ensures InvAnnounced(Next(s, Forget(v, k))) && InvCommit(Next(s, Forget(v, k)))
  {
    var s' := Next(s, Forget(v, k));
    ForgetSteady(s, v, k);
    forall u | u in s'.servers ensures GoodCommit(s', u) { assert GoodCommit(s, u); }
    forall t | t in s'.reigns ensures Announced(s', t) {
      assert Announced(s, t);
      AnnouncedGrows(s, s', t);
    }
  }

  lemma ForgetInv(s: State, v: Id, k: nat)
    requires Inv(s) && Enabled(s, Forget(v, k))
    ensures Inv(Next(s, Forget(v, k)))
  {
    var s' := Next(s, Forget(v, k));
    ForgetSteady(s, v, k);
    ForgetRetain(s, v, k);
    ForgetServers(s, v, k);
    ForgetAcks(s, v, k);
    ForgetCommits(s, v, k);
    forall u, t | (u, t) in s'.votes ensures GoodVote(s', u, t) && GoodClaim(s', u, t) {
      assert GoodVote(s, u, t) && GoodClaim(s, u, t);
    }
    forall u, c | u in s'.servers && c in s'.servers[u].campaigns ensures GoodCampaign(s', u, c) { assert GoodCampaign(s, u, c); }
    forall u, w: nat, t: nat, j: nat | (u, w) in s'.votes ensures VoteRetained(s', u, w, t, j) {
      assert VoteRetained(s, u, w, t, j);
      if Choosable(s', t, j) { ChoosableBefore(s, s', t, j); }
    }
    forall t: nat, u: nat, j: nat | u in s'.reigns ensures Complete(s', t, u, j) {
      assert Complete(s, t, u, j);
      if Choosable(s', t, j) { ChoosableBefore(s, s', t, j); }
    }
  }
}
