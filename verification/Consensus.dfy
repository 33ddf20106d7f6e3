/**
 The consensus core over whole logs, free of messages: every request a leader
 can have sent is a fact about the append-only history of its term (its
 "reign"), so the network needs no state here. The concrete cluster of
 Cluster.dfy is shown to be a refinement of this machine.
 */
module Consensus {
  import opened JukeboxTypes
  import opened RaftLog

  /** A campaign started in `base` captures the log whose (last index, last term) it will claim. */
  datatype Campaign = Campaign(base: nat, log: Log)

  /** `cert` names the reign whose announced commit index covers `commit`. */
  datatype Server = Server(term: nat, log: Log, commit: nat, cert: nat, campaigns: set<Campaign>)

  /** A vote: the voter's log when it voted and, on a candidate's vote for itself, the claimed log. */
  datatype Vote = Vote(cand: Id, log: Log, claim: Log)

  /**
   The history of one term's leader: who elected it, all it appended, what it announced as
   committed, and how far the snapshots it sent reach.
   */
  datatype Reign = Reign(leader: Id, voters: set<Id>, log: Log, commit: nat, root: nat, sent: nat)

  datatype State = State(
    servers: map<Id, Server>,
    reigns: map<nat, Reign>,
    votes: map<(Id, nat), Vote>,
    acked: map<(Id, nat), nat>)

  function Quorum(s: State): nat {
    |s.servers.Keys| / 2 + 1
  }

  function Acked(s: State, v: Id, t: nat): nat {
    if (v, t) in s.acked then s.acked[(v, t)] else 0
  }

  ghost function Ackers(s: State, t: nat, k: nat): set<Id> {
    set v | v in s.servers.Keys && Acked(s, v, t) >= k
  }

  ghost function MayAck(s: State, t: nat, k: nat): set<Id> {
    set v | v in s.servers.Keys && (Acked(s, v, t) >= k || s.servers[v].term <= t)
  }

  ghost predicate OwnTerm(s: State, t: nat, k: nat) {
    t in s.reigns && 0 < k <= |s.reigns[t].log| && s.reigns[t].log[k - 1].term == t
  }

  /** Index k is committed by counting in term t. */
  ghost predicate Committed(s: State, t: nat, k: nat) {
    OwnTerm(s, t, k) && |Ackers(s, t, k)| >= Quorum(s)
  }

  /** Index k of term t is committed or may still become so. */
  ghost predicate Choosable(s: State, t: nat, k: nat) {
    OwnTerm(s, t, k) && |MayAck(s, t, k)| >= Quorum(s)
  }

  // ---- Invariants ----
  // Each invariant ranges over a named predicate and is triggered by that name only,
  // so that a proof says which instances it uses.

  ghost predicate RootedAt(reigns: map<nat, Reign>, log: Log, j: nat)
    requires j < |log|
  {
    log[j].term in reigns && Agree(log, reigns[log[j].term].log, j + 1)
  }

  /** Cut just after an entry of term t, the log is what the leader of t had. */
  ghost predicate Rooted(reigns: map<nat, Reign>, log: Log) {
    forall j: nat {:trigger RootedAt(reigns, log, j)} :: j < |log| ==> RootedAt(reigns, log, j)
  }

  ghost predicate GoodLog(reigns: map<nat, Reign>, log: Log, t: nat) {
    WellFormed(log) && Rooted(reigns, log) && TermsUpTo(log, t)
  }

  ghost predicate KeptAt(leader: Log, claim: Log, log: Log, k: nat) {
    Agree(claim, leader, k) ==> Agree(claim, log, k)
  }

  /** What a log may lose, within term t, of a log it once was: nothing the leader of t shares. */
  ghost predicate Keeps(reigns: map<nat, Reign>, t: nat, claim: Log, log: Log) {
    && (t !in reigns ==> log == claim)
    && (t in reigns ==> forall k: nat {:trigger KeptAt(reigns[t].log, claim, log, k)} :: KeptAt(reigns[t].log, claim, log, k))
  }

  ghost predicate GoodServer(s: State, v: Id)
    requires v in s.servers
  {
    GoodLog(s.reigns, s.servers[v].log, s.servers[v].term)
  }

  ghost predicate InvServers(s: State) {
    forall v {:trigger GoodServer(s, v)} :: v in s.servers ==> GoodServer(s, v)
  }

  ghost predicate GoodReign(s: State, t: nat)
    requires t in s.reigns
  {
    var r := s.reigns[t];
    && 0 < t && GoodLog(s.reigns, r.log, t) && r.log != [] && LastTerm(r.log) == t
    && r.voters <= s.servers.Keys && |r.voters| >= Quorum(s)
    && (forall v :: v in r.voters ==> (v, t) in s.votes && s.votes[(v, t)].cand == r.leader)
    && r.leader in s.servers && (r.leader, t) in s.votes
    && (s.servers[r.leader].term == t ==> s.servers[r.leader].log == r.log)
    && Acked(s, r.leader, t) == |r.log|
  }

  ghost predicate InvReigns(s: State) {
    forall t {:trigger GoodReign(s, t)} :: t in s.reigns ==> GoodReign(s, t)
  }

  ghost predicate GoodVote(s: State, v: Id, t: nat)
    requires (v, t) in s.votes
  {
    var b := s.votes[(v, t)];
    && v in s.servers && 0 < t <= s.servers[v].term
    && GoodLog(s.reigns, b.log, t)
    && (b.cand, t) in s.votes && s.votes[(b.cand, t)].cand == b.cand
    && (v != b.cand ==>
          var claim := s.votes[(b.cand, t)].claim;
          UpToDate(|claim|, LastTerm(claim), b.log))
  }

  ghost predicate InvVotes(s: State) {
    forall v, t {:trigger GoodVote(s, v, t)} :: (v, t) in s.votes ==> GoodVote(s, v, t)
  }

  /** A candidate's vote for itself fixes the log it will lead with and the log it claims. */
  ghost predicate GoodClaim(s: State, v: Id, t: nat)
    requires (v, t) in s.votes
  {
    var b := s.votes[(v, t)];
    v == b.cand && v in s.servers && 0 < t ==>
      && TermsUpTo(b.log, t - 1)
      && GoodLog(s.reigns, b.claim, t - 1)
      && Keeps(s.reigns, t - 1, b.claim, b.log)
      && (t == s.servers[v].term && t !in s.reigns ==> s.servers[v].log == b.log)
  }

  ghost predicate InvClaims(s: State) {
    forall v, t {:trigger GoodClaim(s, v, t)} :: (v, t) in s.votes ==> GoodClaim(s, v, t)
  }

  ghost predicate GoodCampaign(s: State, v: Id, c: Campaign)
    requires v in s.servers
  {
    && c.base <= s.servers[v].term
    && GoodLog(s.reigns, c.log, c.base)
    && (c.base == s.servers[v].term ==> Keeps(s.reigns, c.base, c.log, s.servers[v].log))
  }

  ghost predicate InvCampaigns(s: State) {
    forall v, c {:trigger GoodCampaign(s, v, c)} ::
      v in s.servers && c in s.servers[v].campaigns ==> GoodCampaign(s, v, c)
  }

  /** What a server acknowledged in its term it holds, or a snapshot its leader sent reaches further. */
  ghost predicate GoodAck(s: State, v: Id, t: nat)
    requires (v, t) in s.acked
  {
    && v in s.servers && t in s.reigns && t <= s.servers[v].term
    && s.acked[(v, t)] <= |s.reigns[t].log|
    && (t == s.servers[v].term ==>
          Agree(s.reigns[t].log, s.servers[v].log, s.acked[(v, t)]) || s.acked[(v, t)] < s.reigns[t].sent)
  }

  ghost predicate InvAcks(s: State) {
    forall v, t {:trigger GoodAck(s, v, t)} :: (v, t) in s.acked ==> GoodAck(s, v, t)
  }

  ghost predicate SupersededBy(reigns: map<nat, Reign>, t: nat, k: nat, u: nat) {
    t in reigns && u in reigns && k < reigns[u].commit && Agree(reigns[t].log, reigns[u].log, k)
  }

  /** Some leader up to a term has announced a commit beyond index k of term t, with the same first k entries. */
  ghost predicate Superseded(reigns: map<nat, Reign>, t: nat, k: nat, upTo: nat) {
    exists u: nat {:trigger SupersededBy(reigns, t, k, u)} :: u <= upTo && SupersededBy(reigns, t, k, u)
  }

  ghost predicate Retained(s: State, v: Id, t: nat, k: nat)
    requires v in s.servers
  {
    Choosable(s, t, k) && k <= Acked(s, v, t) ==>
      Agree(s.reigns[t].log, s.servers[v].log, k) || Superseded(s.reigns, t, k, s.servers[v].term)
  }

  /** What may still be committed is kept by every server that acknowledged it, or superseded. */
  ghost predicate InvRetain(s: State) {
    forall v, t: nat, k: nat {:trigger Retained(s, v, t, k)} :: v in s.servers ==> Retained(s, v, t, k)
  }

  ghost predicate VoteRetained(s: State, v: Id, u: nat, t: nat, k: nat)
    requires (v, u) in s.votes
  {
    t < u && Choosable(s, t, k) && k <= Acked(s, v, t) ==>
      Agree(s.reigns[t].log, s.votes[(v, u)].log, k) || Superseded(s.reigns, t, k, u)
  }

  ghost predicate InvVoteRetain(s: State) {
    forall v, u: nat, t: nat, k: nat {:trigger VoteRetained(s, v, u, t, k)} ::
      (v, u) in s.votes ==> VoteRetained(s, v, u, t, k)
  }

  ghost predicate Complete(s: State, t: nat, u: nat, k: nat)
    requires u in s.reigns
  {
    t < u && Choosable(s, t, k) ==> Agree(s.reigns[t].log, s.reigns[u].log, k)
  }

  /** Leader completeness: what may still be committed in t is in the log of every later leader. */
  ghost predicate InvComplete(s: State) {
    forall t: nat, u: nat, k: nat {:trigger Complete(s, t, u, k)} :: u in s.reigns ==> Complete(s, t, u, k)
  }

  /** A reign's announced commit goes back to a count in the `root` reign. */
  ghost predicate Announced(s: State, t: nat)
    requires t in s.reigns
  {
    var r := s.reigns[t];
    && r.sent <= r.commit <= |r.log|
    && (r.commit > 0 ==>
          && r.root <= t && r.root in s.reigns && s.reigns[r.root].root == r.root
          && r.commit <= s.reigns[r.root].commit
          && Committed(s, r.root, s.reigns[r.root].commit)
          && Agree(r.log, s.reigns[r.root].log, r.commit))
  }

  ghost predicate InvAnnounced(s: State) {
    forall t {:trigger Announced(s, t)} :: t in s.reigns ==> Announced(s, t)
  }

  /** A prefix of length k covered by the announced commit of reign `cert`. */
  ghost predicate Certified(s: State, log: Log, k: nat, cert: nat) {
    k <= |log| && (k > 0 ==> cert in s.reigns && k <= s.reigns[cert].commit && Agree(log, s.reigns[cert].log, k))
  }

  ghost predicate GoodCommit(s: State, v: Id)
    requires v in s.servers
  {
    var n := s.servers[v];
    Certified(s, n.log, n.commit, n.cert) && (n.commit > 0 ==> n.cert <= n.term)
  }

  ghost predicate InvCommit(s: State) {
    forall v {:trigger GoodCommit(s, v)} :: v in s.servers ==> GoodCommit(s, v)
  }

  ghost predicate Inv(s: State) {
    && InvServers(s) && InvReigns(s) && InvVotes(s) && InvClaims(s) && InvCampaigns(s)
    && InvAcks(s) && InvRetain(s) && InvVoteRetain(s) && InvComplete(s)
    && InvAnnounced(s) && InvCommit(s)
  }

  // ---- Actions ----

  datatype Action =
    | Bump(v: Id, term: nat)
    | Campaigning(v: Id)
    | Stand(v: Id, c: Campaign)
    | Grant(v: Id, cand: Id)
    | Win(v: Id, voters: set<Id>, payload: Payload)
    | Extend(v: Id, payload: Payload)
    | Adopt(v: Id, log: Log, ack: nat, commit: nat)
    | CommitTo(v: Id, k: nat)
    | Ship(v: Id, k: nat)
    | Restart(v: Id, commit: nat)
    | Forget(v: Id, k: nat)

  ghost predicate Enabled(s: State, a: Action) {
    a.v in s.servers &&
    var n := s.servers[a.v];
    match a
    case Bump(_, term) => term > n.term
    case Campaigning(_) => true
    case Stand(_, c) => c in n.campaigns && c.base == n.term
    case Grant(v, cand) =>
      && (v, n.term) !in s.votes
      && (cand, n.term) in s.votes && s.votes[(cand, n.term)].cand == cand
      && var claim := s.votes[(cand, n.term)].claim;
         UpToDate(|claim|, LastTerm(claim), n.log)
    case Win(v, voters, _) =>
      && voters <= s.servers.Keys && |voters| >= Quorum(s)
      && (forall u :: u in voters ==> (u, n.term) in s.votes && s.votes[(u, n.term)].cand == v)
      && (n.term in s.reigns ==> s.reigns[n.term].leader != v)
    case Extend(v, _) => n.term in s.reigns && s.reigns[n.term].leader == v
    case Adopt(_, log, ack, commit) => AdoptOk(s, n, log, ack, commit)
    case CommitTo(v, k) =>
      && n.term in s.reigns && s.reigns[n.term].leader == v
      && s.reigns[n.term].commit < k
      && Committed(s, n.term, k)
    case Ship(v, k) => n.term in s.reigns && s.reigns[n.term].leader == v && k <= s.reigns[n.term].commit
    case Restart(_, commit) => commit <= n.commit
    case Forget(_, k) =>
      n.term in s.reigns && k <= n.commit <= |n.log| && !Agree(n.log, s.reigns[n.term].log, s.reigns[n.term].sent)
  }

  // `Forget` is a restart that has lost the log above k: the server was about to replace its
  // log, which parts from its leader's, by a snapshot the leader sent.

  /**
   A server of term t takes over (part of) its leader's log: nothing it shares with the
   leader is lost, what it acknowledges it holds, and what it newly counts as
   committed its leader announced and it holds.
   */
  ghost predicate AdoptOk(s: State, n: Server, log: Log, ack: nat, commit: nat) {
    n.term in s.reigns &&
    var r := s.reigns[n.term];
    && GoodLog(s.reigns, log, n.term)
    && (forall k: nat {:trigger KeptAt(r.log, n.log, log, k)} :: KeptAt(r.log, n.log, log, k))
    && (n.log == r.log ==> log == r.log)
    && (ack > 0 ==> Agree(r.log, log, ack))
    && commit <= |log|
    && (commit > n.commit ==> commit <= r.commit && Agree(log, r.log, commit))
  }

  function Put(s: State, v: Id, n: Server): State {
    s.(servers := s.servers[v := n])
  }

  ghost function Next(s: State, a: Action): State
    requires Enabled(s, a)
  {
    var n := s.servers[a.v];
    match a
    case Bump(v, term) => Put(s, v, n.(term := term))
    case Campaigning(v) => Put(s, v, n.(campaigns := n.campaigns + {Campaign(n.term, n.log)}))
    case Stand(v, c) =>
      Put(s, v, n.(term := n.term + 1)).(votes := s.votes[(v, n.term + 1) := Vote(v, n.log, c.log)])
    case Grant(v, cand) => s.(votes := s.votes[(v, n.term) := Vote(cand, n.log, [])])
    case Win(v, voters, payload) =>
      var log := n.log + [Entry(n.term, |n.log| + 1, payload)];
      var root := if n.commit > 0 && n.cert in s.reigns then s.reigns[n.cert].root else 0;
      Put(s, v, n.(log := log, cert := n.term))
        .(reigns := s.reigns[n.term := Reign(v, voters, log, n.commit, root, 0)],
          acked := s.acked[(v, n.term) := |log|])
    case Extend(v, payload) =>
      var log := n.log + [Entry(n.term, |n.log| + 1, payload)];
      Put(s, v, n.(log := log))
        .(reigns := s.reigns[n.term := s.reigns[n.term].(log := log)],
          acked := s.acked[(v, n.term) := |log|])
    case Adopt(v, log, ack, commit) =>
      var cert := if commit > n.commit then n.term else n.cert;
      Put(s, v, n.(log := log, commit := commit, cert := cert))
        .(acked := if ack > Acked(s, v, n.term) then s.acked[(v, n.term) := ack] else s.acked)
    case CommitTo(v, k) =>
      Put(s, v, n.(commit := k, cert := n.term))
        .(reigns := s.reigns[n.term := s.reigns[n.term].(commit := k, root := n.term)])
    case Ship(v, k) => s.(reigns := s.reigns[n.term := s.reigns[n.term].(sent := Max(s.reigns[n.term].sent, k))])
    case Restart(v, commit) => Put(s, v, n.(commit := commit, campaigns := {}))
    case Forget(v, k) => Put(s, v, n.(log := n.log[..k], commit := k, campaigns := {}))
  }

  function Init(ids: set<Id>): State {
    State(map v | v in ids :: Server(0, [], 0, 0, {}), map[], map[], map[])
  }
}
