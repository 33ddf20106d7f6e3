/** What every run of the jukebox keeps (internal/jukebox/jukebox.go), whatever is retried. */
module JukeboxLaws {
  import opened JukeboxTypes
  import opened JukeboxSpec

  // ---- The jukebox without duplicate suppression ----

  /** Everything but the client sessions. */
  function Visible(st: JukeState): JukeState {
    st.(lastSeq := map[], lastResult := map[])
  }

  function PerformAll(st: JukeState, cs: seq<Command>): JukeState
    decreases |cs|
  {
    if cs == [] then st else Perform(PerformAll(st, cs[..|cs| - 1]), cs[|cs| - 1]).0
  }

  /** Performing a command neither reads nor writes the client sessions. */
  lemma PerformIgnoresSessions(st: JukeState, c: Command)
    ensures Visible(Perform(st, c).0) == Perform(Visible(st), c).0
    ensures Perform(st, c).1 == Perform(Visible(st), c).1
    ensures Perform(st, c).0.lastSeq == st.lastSeq && Perform(st, c).0.lastResult == st.lastResult
  {
    if c.op == OP_VOTE_SKIP {
      VoteIgnoresSessions(st, c);
    } else if c.op == OP_REORDER {
      ReorderIgnoresSessions(st, c);
    }
  }

  lemma VoteIgnoresSessions(st: JukeState, c: Command)
    requires c.op == OP_VOTE_SKIP
    ensures Visible(Perform(st, c).0) == Perform(Visible(st), c).0 && Perform(st, c).1 == Perform(Visible(st), c).1
    ensures Perform(st, c).0.lastSeq == st.lastSeq && Perform(st, c).0.lastResult == st.lastResult
  {
  }

  lemma ReorderIgnoresSessions(st: JukeState, c: Command)
    requires c.op == OP_REORDER
    ensures Visible(Perform(st, c).0) == Perform(Visible(st), c).0 && Perform(st, c).1 == Perform(Visible(st), c).1
    ensures Perform(st, c).0.lastSeq == st.lastSeq && Perform(st, c).0.lastResult == st.lastResult
  {
  }

  // ---- Exactly once ----

  /** The highest number client id has tagged a command with. */
  function Highest(ps: seq<Payload>, id: string): nat
    decreases |ps|
  {
    if ps == [] then 0
    else
      var rest, p := Highest(ps[..|ps| - 1], id), ps[|ps| - 1];
      if p.Decoded? && Tagged(p.command) && p.command.clientId == id && p.command.seqNo > rest then p.command.seqNo else rest
  }

  /** Tagged by this client at position i. */
  predicate TaggedAt(ps: seq<Payload>, i: nat, id: string) {
    i < |ps| && ps[i].Decoded? && Tagged(ps[i].command) && ps[i].command.clientId == id
  }

  lemma {:induction false} HighestMeans(ps: seq<Payload>, id: string, k: nat)
    ensures Highest(ps, id) < k <==> 0 < k && forall i: nat :: TaggedAt(ps, i, id) ==> ps[i].command.seqNo < k
    decreases |ps|
  {
    if ps != [] {
      var front, n := ps[..|ps| - 1], |ps| - 1;
      HighestMeans(front, id, k);
      forall i: nat ensures TaggedAt(front, i, id) <==> i < n && TaggedAt(ps, i, id) { }
      assert TaggedAt(ps, n, id) ==> ps[n].command.seqNo > 0;
      if Highest(ps, id) < k {
        forall i: nat | TaggedAt(ps, i, id) ensures ps[i].command.seqNo < k {
          if i < n { assert TaggedAt(front, i, id); }
        }
      } else if 0 < k && forall i: nat :: TaggedAt(ps, i, id) ==> ps[i].command.seqNo < k {
        forall i: nat | TaggedAt(front, i, id) ensures front[i].command.seqNo < k { assert TaggedAt(ps, i, id); }
      }
    }
  }

  /** The commands that take effect: untagged ones, and tagged ones numbered above all earlier ones of their client. */
  function Effective(ps: seq<Payload>): seq<Command>
    decreases |ps|
  {
    if ps == [] then []
    else
      var front, p := ps[..|ps| - 1], ps[|ps| - 1];
      Effective(front) +
      (if p.Decoded? && (!Tagged(p.command) || p.command.seqNo > Highest(front, p.command.clientId)) then [p.command] else [])
  }

  ghost predicate SessionAt(st: JukeState, ps: seq<Payload>, id: string) {
    && (id in st.lastSeq <==> Highest(ps, id) > 0) && (id in st.lastResult <==> id in st.lastSeq)
    && (id in st.lastSeq ==> st.lastSeq[id] == Highest(ps, id))
  }

  /** A client has a session exactly when it has tagged a command; the two session maps go together. */
  lemma {:induction false} Sessions(ps: seq<Payload>, id: string)
    ensures SessionAt(Run(INITIAL, ps), ps, id)
    decreases |ps|
  {
    if ps != [] {
      var front, p := ps[..|ps| - 1], ps[|ps| - 1];
      var st := Run(INITIAL, front);
      Sessions(front, id);
      if p.Decoded? {
        Sessions(front, p.command.clientId);
        PerformIgnoresSessions(st, p.command);
      }
    }
  }

  /** Only a command numbered at or below an earlier one of its client is a duplicate. */
  lemma {:induction false} DuplicateIff(ps: seq<Payload>, c: Command)
    ensures Duplicate(Run(INITIAL, ps), c) <==> Tagged(c) && c.seqNo <= Highest(ps, c.clientId)
  {
    Sessions(ps, c.clientId);
  }

  /**
   Exactly once: with arbitrary retries, the jukebox is where a jukebox without duplicate suppression
   is after the effective commands alone.
   */
  lemma {:induction false} ExactlyOnce(ps: seq<Payload>)
    ensures Visible(Run(INITIAL, ps)) == PerformAll(INITIAL, Effective(ps))
    decreases |ps|
  {
    if ps != [] {
      ExactlyOnce(ps[..|ps| - 1]);
      OnceMore(ps);
    }
  }

  lemma PerformMore(st: JukeState, cs: seq<Command>, c: Command)
    ensures PerformAll(st, cs + [c]) == Perform(PerformAll(st, cs), c).0
  {
    assert (cs + [c])[..|cs|] == cs;
  }

  /** The last payload changes the visible state exactly if it is effective. */
  lemma {:induction false} OnceMore(ps: seq<Payload>)
    requires ps != [] && Visible(Run(INITIAL, ps[..|ps| - 1])) == PerformAll(INITIAL, Effective(ps[..|ps| - 1]))
    ensures Visible(Run(INITIAL, ps)) == PerformAll(INITIAL, Effective(ps))
  {
    var front, p := ps[..|ps| - 1], ps[|ps| - 1];
    var st, cs := Run(INITIAL, front), Effective(front);
    ApplyVisible(st, p);
    if p.Decoded? {
      DuplicateIff(front, p.command);
      PerformMore(INITIAL, cs, p.command);
    }
    assert cs + [] == cs;
  }

  /** Applying shows a payload's effect unless it is malformed or a duplicate. */
  lemma ApplyVisible(st: JukeState, p: Payload)
    ensures Visible(Apply(st, p).0) == if p.Decoded? && !Duplicate(st, p.command) then Perform(Visible(st), p.command).0 else Visible(st)
  {
    if p.Decoded? { PerformIgnoresSessions(st, p.command); }
  }

  // ---- Retries ----

  /** No command of this client numbered above k. */
  ghost predicate NoneAbove(ps: seq<Payload>, id: string, k: nat) {
    forall i: nat :: TaggedAt(ps, i, id) ==> ps[i].command.seqNo <= k
  }

  ghost predicate Remembers(st: JukeState, id: string, k: nat, r: Result) {
    id in st.lastSeq && id in st.lastResult && st.lastSeq[id] == k && st.lastResult[id] == r
  }

  lemma {:induction false} RemembersThrough(st: JukeState, ps: seq<Payload>, id: string, k: nat, r: Result)
    requires Remembers(st, id, k, r) && NoneAbove(ps, id, k)
    ensures Remembers(Run(st, ps), id, k, r)
    decreases |ps|
  {
    if ps != [] {
      var front, n := ps[..|ps| - 1], |ps| - 1;
      forall i: nat | TaggedAt(front, i, id) ensures front[i].command.seqNo <= k { assert TaggedAt(ps, i, id); }
      RemembersThrough(st, front, id, k, r);
      if ps[n].Decoded? {
        PerformIgnoresSessions(Run(st, front), ps[n].command);
        assert Tagged(ps[n].command) && ps[n].command.clientId == id ==> TaggedAt(ps, n, id);
      }
    }
  }

  /** A retried command changes nothing and answers as it first did, until its client moves on. */
  lemma {:induction false} RetryAnswersAlike(st: JukeState, c: Command, ps: seq<Payload>)
    requires Tagged(c) && !Duplicate(st, c) && NoneAbove(ps, c.clientId, c.seqNo)
    ensures var first := Apply(st, Decoded(c)); var later := Run(first.0, ps);
      Apply(later, Decoded(c)) == (later, first.1)
  {
    var first := Apply(st, Decoded(c));
    RemembersThrough(first.0, ps, c.clientId, c.seqNo, first.1);
  }

  // ---- Conservation ----

  /** Every song the jukebox knows: played, playing and waiting. */
  function Tape(st: JukeState): seq<Song> {
    st.history + Now(st) + st.queue
  }

  predicate AddsSong(c: Command) {
    c.op == OP_ENQUEUE && c.song.Some? && c.song.value.title != ""
  }

  function Enqueued(cs: seq<Command>): seq<Song>
    decreases |cs|
  {
    if cs == [] then []
    else
      var c := cs[|cs| - 1];
      Enqueued(cs[..|cs| - 1]) + (if AddsSong(c) then [c.song.value] else [])
  }

  lemma PlayNextKeepsTape(st: JukeState)
    ensures Tape(PlayNext(st)) == Tape(st)
  {
    if st.queue == [] {
      assert st.history + Now(st) + [] + [] == st.history + Now(st) + st.queue;
    } else {
      assert [st.queue[0]] + st.queue[1..] == st.queue;
      assert (st.history + Now(st)) + [st.queue[0]] + st.queue[1..] == (st.history + Now(st)) + ([st.queue[0]] + st.queue[1..]);
    }
  }

  lemma MoveKeepsSongs(q: seq<Song>, from: nat, to: nat)
    requires from < |q| && to < |q|
    ensures multiset(Move(q, from, to)) == multiset(q)
  {
    var rest := Remove(q, from);
    assert q == q[..from] + [q[from]] + q[from + 1..];
    assert rest == rest[..to] + rest[to..];
    assert multiset(q) == multiset(rest) + multiset{q[from]};
    assert multiset(Move(q, from, to)) == multiset(rest[..to]) + multiset{q[from]} + multiset(rest[to..]);
  }

  /** A move puts the song where asked and keeps the order of the others. */
  lemma {:induction false} MoveMeans(q: seq<Song>, from: nat, to: nat)
    requires from < |q| && to < |q|
    ensures |Move(q, from, to)| == |q| && Move(q, from, to)[to] == q[from]
    ensures Remove(Move(q, from, to), to) == Remove(q, from)
  {
    var rest := Remove(q, from);
    assert Remove(Move(q, from, to), to) == rest[..to] + rest[to..];
    assert rest == rest[..to] + rest[to..];
  }

  /** One command, other than a reorder, appends its song, if any, to the tape. */
  lemma StepTape(st: JukeState, c: Command)
    requires c.op != OP_REORDER
    ensures Tape(Perform(st, c).0) == Tape(st) + (if AddsSong(c) then [c.song.value] else [])
  {
    if c.op == OP_PLAY_NEXT { PlayNextKeepsTape(st); }
    else if c.op == OP_VOTE_SKIP { PlayNextKeepsTape(st.(skipVotes := st.skipVotes + {Voter(c)})); }
    else if AddsSong(c) { assert Tape(st) + [c.song.value] == st.history + Now(st) + (st.queue + [c.song.value]); }
  }

  lemma StepSongs(st: JukeState, c: Command)
    ensures multiset(Tape(Perform(st, c).0)) == multiset(Tape(st)) + multiset(if AddsSong(c) then [c.song.value] else [])
  {
    if c.op == OP_REORDER {
      var from := FindSong(st.queue, c.songId);
      if from < |st.queue| { MoveKeepsSongs(st.queue, from, Clamp(c.toIndex, |st.queue|)); }
    } else {
      StepTape(st, c);
    }
  }

  /** Songs are neither lost nor invented, reorders included. */
  lemma {:induction false} SongsConserved(cs: seq<Command>)
    ensures multiset(Tape(PerformAll(INITIAL, cs))) == multiset(Enqueued(cs))
    decreases |cs|
  {
    if cs != [] {
      var front, c := cs[..|cs| - 1], cs[|cs| - 1];
      SongsConserved(front);
      StepSongs(PerformAll(INITIAL, front), c);
    }
  }

  /** Without reorders the songs stand in the order they were enqueued. */
  lemma {:induction false} OrderKept(cs: seq<Command>)
    requires forall i :: 0 <= i < |cs| ==> cs[i].op != OP_REORDER
    ensures Tape(PerformAll(INITIAL, cs)) == Enqueued(cs)
    decreases |cs|
  {
    if cs != [] {
      OrderKept(cs[..|cs| - 1]);
      StepTape(PerformAll(INITIAL, cs[..|cs| - 1]), cs[|cs| - 1]);
    }
  }

  /** The same over logs with retries: what was effectively enqueued is what the jukebox holds. */
  lemma LogConserved(ps: seq<Payload>)
    ensures multiset(Tape(Run(INITIAL, ps))) == multiset(Enqueued(Effective(ps)))
  {
    ExactlyOnce(ps);
    SongsConserved(Effective(ps));
    assert Tape(Run(INITIAL, ps)) == Tape(Visible(Run(INITIAL, ps)));
  }

  // ---- Votes ----

  /** A vote that reaches the threshold has already advanced the song. */
  ghost predicate VotesPending(st: JukeState) {
    && st.skipThreshold == DEFAULT_SKIP_THRESHOLD && |st.skipVotes| < st.skipThreshold
    && (st.nowPlaying.None? ==> st.skipVotes == {}) && "" !in st.skipVotes
  }

  lemma PerformKeepsVotes(st: JukeState, c: Command)
    requires VotesPending(st)
    ensures VotesPending(Perform(st, c).0)
  {
  }

  lemma ApplyKeepsVotes(st: JukeState, p: Payload)
    requires VotesPending(st)
    ensures VotesPending(Apply(st, p).0)
  {
    if p.Decoded? { PerformKeepsVotes(st, p.command); }
  }

  lemma {:induction false} VotesBelowThreshold(ps: seq<Payload>)
    ensures VotesPending(Run(INITIAL, ps))
    decreases |ps|
  {
    if ps != [] {
      VotesBelowThreshold(ps[..|ps| - 1]);
      ApplyKeepsVotes(Run(INITIAL, ps[..|ps| - 1]), ps[|ps| - 1]);
    }
  }
}
