/** What votes, refusals and answers mean over every sequence of commands (internal/jukebox/jukebox.go:129-219). */
module SkipVotes {
  import opened JukeboxTypes
  import opened JukeboxSpec
  import opened JukeboxLaws

  // ---- Votes since the song came on ----

  /** The command is w's vote: by its voter field or, when that is unset, by its client's id. */
  ghost predicate Casts(c: Command, w: string) {
    c.op == OP_VOTE_SKIP && w != "" && (c.voter == w || (c.voter == "" && c.clientId == w))
  }

  /** The song playing before command i is still on after all of cs: none has been put away since. */
  ghost predicate StillOn(cs: seq<Command>, i: nat)
    requires i <= |cs|
  {
    var st := PerformAll(INITIAL, cs[..i]);
    st.nowPlaying.Some? && |st.history| == |PerformAll(INITIAL, cs).history|
  }

  ghost predicate VotedAt(cs: seq<Command>, i: nat, w: string) {
    i < |cs| && Casts(cs[i], w) && StillOn(cs, i)
  }

  /** w has voted since the song that is on came on. */
  ghost predicate HasVoted(cs: seq<Command>, w: string) {
    exists i: nat :: VotedAt(cs, i, w)
  }

  lemma HistoryGrows(st: JukeState, c: Command)
    ensures |st.history| <= |Perform(st, c).0.history|
  {
  }

  lemma {:induction false} HistoriesGrow(cs: seq<Command>, i: nat)
    requires i <= |cs|
    ensures |PerformAll(INITIAL, cs[..i]).history| <= |PerformAll(INITIAL, cs).history|
    decreases |cs|
  {
    if i == |cs| {
      assert cs[..i] == cs;
    } else {
      var front := cs[..|cs| - 1];
      HistoriesGrow(front, i);
      assert front[..i] == cs[..i];
      HistoryGrows(PerformAll(INITIAL, front), cs[|cs| - 1]);
    }
  }

  lemma {:induction false} VotesStayPending(cs: seq<Command>)
    ensures VotesPending(PerformAll(INITIAL, cs))
    decreases |cs|
  {
    if cs != [] {
      VotesStayPending(cs[..|cs| - 1]);
      PerformKeepsVotes(PerformAll(INITIAL, cs[..|cs| - 1]), cs[|cs| - 1]);
    }
  }

  /** Whether the last command leaves the song on. */
  ghost predicate LeavesOn(cs: seq<Command>)
    requires cs != []
  {
    |PerformAll(INITIAL, cs).history| == |PerformAll(INITIAL, cs[..|cs| - 1]).history|
  }

  lemma EarlierVotes(cs: seq<Command>, w: string, i: nat)
    requires cs != [] && i < |cs| - 1
    ensures VotedAt(cs, i, w) <==> LeavesOn(cs) && VotedAt(cs[..|cs| - 1], i, w)
  {
    var front := cs[..|cs| - 1];
    assert front[..i] == cs[..i];
    HistoriesGrow(front, i);
    HistoryGrows(PerformAll(INITIAL, front), cs[|cs| - 1]);
  }

  /** Votes since the song came on: those before the last command, and the last if it is one. */
  lemma LastVote(cs: seq<Command>, w: string)
    requires cs != []
    ensures var front, c := cs[..|cs| - 1], cs[|cs| - 1];
      HasVoted(cs, w) <==> LeavesOn(cs) && (HasVoted(front, w) || (Casts(c, w) && PerformAll(INITIAL, front).nowPlaying.Some?))
  {
    var front, k := cs[..|cs| - 1], |cs| - 1;
    if HasVoted(cs, w) {
      var i: nat :| VotedAt(cs, i, w);
      if i < k { EarlierVotes(cs, w, i); }
    }
    if LeavesOn(cs) && HasVoted(front, w) {
      var i: nat :| VotedAt(front, i, w);
      EarlierVotes(cs, w, i);
    }
    if LeavesOn(cs) && Casts(cs[k], w) && PerformAll(INITIAL, front).nowPlaying.Some? { assert VotedAt(cs, k, w); }
  }

  lemma VoteStep(st: JukeState, c: Command, w: string)
    requires VotesPending(st)
    ensures var st' := Perform(st, c).0;
      w in st'.skipVotes <==>
        |st'.history| == |st.history| && (w in st.skipVotes || (Casts(c, w) && st.nowPlaying.Some?))
  {
  }

  /** The jukebox holds exactly the votes cast since the song came on. */
  lemma {:induction false} VotesAre(cs: seq<Command>, w: string)
    ensures w in PerformAll(INITIAL, cs).skipVotes <==> HasVoted(cs, w)
    decreases |cs|
  {
    if cs != [] {
      var front := cs[..|cs| - 1];
      VotesAre(front, w);
      VotesStayPending(front);
      LastVote(cs, w);
      VoteStep(PerformAll(INITIAL, front), cs[|cs| - 1], w);
    }
  }

  /** What playing the next song does: the one on is put away, the first in the queue comes on, without votes. */
  ghost predicate SongChanges(st: JukeState, st': JukeState) {
    && st'.history == st.history + Now(st) && Now(st') + st'.queue == st.queue && (st.queue != [] ==> st'.nowPlaying.Some?)
    && st'.skipVotes == {} && st' == st.(history := st'.history, nowPlaying := st'.nowPlaying, queue := st'.queue, skipVotes := {})
  }

  ghost predicate SameSongs(st: JukeState, st': JukeState) {
    st'.nowPlaying == st.nowPlaying && st'.queue == st.queue && st'.history == st.history
  }

  /**
   A vote changes now-playing, queue or history if and only if it brings the distinct voters since the song came
   on to three; then the song changes, and otherwise exactly this voter is added.
   */
  lemma SkipIff(cs: seq<Command>, c: Command, w: string, voters: set<string>)
    requires Casts(c, w) && PerformAll(INITIAL, cs).nowPlaying.Some?
    requires forall x :: x in voters <==> HasVoted(cs, x)
    ensures var st := PerformAll(INITIAL, cs); var (st', r) := Perform(st, c);
      && r.ok && (!SameSongs(st, st') <==> |voters + {w}| >= 3)
      && (|voters + {w}| >= 3 ==> SongChanges(st, st'))
      && (|voters + {w}| < 3 ==> st' == st.(skipVotes := voters + {w}))
  {
    var st := PerformAll(INITIAL, cs);
    VotesStayPending(cs);
    forall x ensures x in voters <==> x in st.skipVotes { VotesAre(cs, x); }
    assert voters == st.skipVotes;
    VoteChanges(st, c, w);
  }

  lemma VoteChanges(st: JukeState, c: Command, w: string)
    requires VotesPending(st) && Casts(c, w) && st.nowPlaying.Some?
    ensures var (st', r) := Perform(st, c);
      && r.ok && (!SameSongs(st, st') <==> |st.skipVotes + {w}| >= 3)
      && (|st.skipVotes + {w}| >= 3 ==> SongChanges(st, st'))
      && (|st.skipVotes + {w}| < 3 ==> st' == st.(skipVotes := st.skipVotes + {w}))
  {
    var voted := st.(skipVotes := st.skipVotes + {w});
    NextChanges(voted);
    assert |st.history + Now(st)| == |st.history| + 1;
  }

  lemma NextChanges(st: JukeState)
    ensures SongChanges(st, PlayNext(st))
  {
  }

  /** Whatever puts a song on or away leaves no votes behind. */
  lemma SongStartsUnvoted(st: JukeState, c: Command)
    requires VotesPending(st)
    ensures var st' := Perform(st, c).0;
      st'.nowPlaying != st.nowPlaying || st'.history != st.history ==> st'.skipVotes == {}
  {
  }

  /** Playing the next song changes the song, whatever the votes. */
  lemma PlayNextChanges(st: JukeState, c: Command)
    requires c.op == OP_PLAY_NEXT
    ensures SongChanges(st, Perform(st, c).0)
  {
    NextChanges(st);
  }

  /** The same for a log with retries: the votes are those of the effective commands. */
  lemma LogVotes(ps: seq<Payload>, w: string)
    ensures w in Run(INITIAL, ps).skipVotes <==> HasVoted(Effective(ps), w)
  {
    ExactlyOnce(ps);
    VotesAre(Effective(ps), w);
    assert Run(INITIAL, ps).skipVotes == Visible(Run(INITIAL, ps)).skipVotes;
  }

  /** A restored jukebox obeys the vote law although its data leaves the threshold unset. */
  lemma RestoredPending(st: JukeState, d: JukeState)
    requires d.skipThreshold in {0, 3} && |d.skipVotes| < 3 && "" !in d.skipVotes && (d.nowPlaying.None? ==> d.skipVotes == {})
    ensures VotesPending(Restored(st, Some(d))) && SameSongs(d, Restored(st, Some(d)))
  {
  }

  // ---- Refusals and answers ----

  /** No queued song has the id. */
  ghost predicate Missing(q: seq<Song>, id: string) {
    forall i :: 0 <= i < |q| ==> q[i].id != id
  }

  /** Nothing can be done with the command in this state. */
  ghost predicate Hopeless(st: JukeState, c: Command) {
    if c.op == OP_ENQUEUE then c.song.None? || c.song.value.title == ""
    else if c.op == OP_VOTE_SKIP then st.nowPlaying.None? || (c.voter == "" && c.clientId == "")
    else if c.op == OP_REORDER then Missing(st.queue, c.songId)
    else c.op != OP_PLAY_NEXT && c.op != OP_NOOP
  }

  /** A command is refused, with a reason, exactly when nothing can be done with it, and then changes nothing. */
  lemma RefusedIff(st: JukeState, c: Command)
    ensures var (st', r) := Perform(st, c);
      && (r.ok <==> !Hopeless(st, c)) && (r.ok <==> r.error == "") && (!r.ok ==> st' == st)
  {
    var from := FindSong(st.queue, c.songId);
    assert from < |st.queue| ==> st.queue[from].id == c.songId;
  }

  ghost predicate Shows(r: Result, st: JukeState) {
    r.nowPlaying == st.nowPlaying && r.queue == st.queue && r.skipVotes == |st.skipVotes|
  }

  /** An answer that is not a refusal shows the state after the command; a no-op's shows nothing. */
  lemma AnswerShows(st: JukeState, c: Command)
    ensures var (st', r) := Perform(st, c);
      if r.ok && c.op != OP_NOOP then Shows(r, st') else st' == st && r.nowPlaying == None && r.queue == [] && r.skipVotes == 0
  {
    if c.op == OP_VOTE_SKIP { VoteShows(st, c); } else if c.op == OP_REORDER { ReorderShows(st, c); }
  }

  lemma VoteShows(st: JukeState, c: Command)
    requires c.op == OP_VOTE_SKIP
    ensures var (st', r) := Perform(st, c);
      if r.ok then Shows(r, st') else st' == st && r.nowPlaying == None && r.queue == [] && r.skipVotes == 0
  {
  }

  lemma ReorderShows(st: JukeState, c: Command)
    requires c.op == OP_REORDER
    ensures var (st', r) := Perform(st, c);
      if r.ok then Shows(r, st') else st' == st && r.nowPlaying == None && r.queue == [] && r.skipVotes == 0
  {
  }

  /** A payload that does not decode is refused, with a reason and no effect. */
  lemma MalformedRefused(st: JukeState, reason: string)
    ensures var (st', r) := Apply(st, Malformed(reason));
      st' == st && !r.ok && r.error != "" && r.nowPlaying == None && r.queue == [] && r.skipVotes == 0
  {
  }

  function Distance(a: int, b: int): nat {
    if a < b then b - a else a - b
  }

  /**
   A reorder takes the first song with the id to the place in the queue nearest to the one asked for, and keeps
   the order of the others; nothing else changes.
   */
  lemma ReorderMeans(st: JukeState, c: Command) returns (from: nat, to: nat)
    requires c.op == OP_REORDER && !Missing(st.queue, c.songId)
    ensures from < |st.queue| && st.queue[from].id == c.songId && Missing(st.queue[..from], c.songId)
    ensures to < |st.queue| && forall k :: 0 <= k < |st.queue| ==> Distance(to, c.toIndex) <= Distance(k, c.toIndex)
    ensures var st' := Perform(st, c).0;
      && |st'.queue| == |st.queue| && st'.queue[to] == st.queue[from] && Remove(st'.queue, to) == Remove(st.queue, from)
      && st' == st.(queue := st'.queue)
  {
    from := FindSong(st.queue, c.songId);
    to := Clamp(c.toIndex, |st.queue|);
    MoveMeans(st.queue, from, to);
  }
}
