/** The jukebox as the object the apply loop drives (internal/jukebox/jukebox.go). */
module JukeboxMachine {
  import opened JukeboxTypes
  import opened JukeboxSpec
  import opened JukeboxLaws

  /** Closes the gap a removed song leaves; the last slot is free afterwards. */
  method CloseGap(a: array<Song>, from: nat)
    requires from < a.Length
    modifies a
    ensures a[..a.Length - 1] == Remove(old(a[..]), from)
  {
    ghost var was := a[..];
    var i, n := from, a.Length;
    while i < n - 1
      invariant from <= i <= n - 1
      invariant forall k :: 0 <= k < from ==> a[k] == was[k]
      invariant forall k :: from <= k < i ==> a[k] == was[k + 1]
      invariant forall k :: i < k < n ==> a[k] == was[k]
    {
      a[i] := a[i + 1];
      i := i + 1;
    }
  }

  /** Shifts the songs from `to` on up by one, into the free last slot, and puts the song there. */
  method OpenGap(a: array<Song>, to: nat, s: Song)
    requires to < a.Length
    modifies a
    ensures a[..] == Insert(old(a[..a.Length - 1]), to, s)
  {
    ghost var rest := a[..a.Length - 1];
    var i := a.Length - 1;
    while i > to
      invariant to <= i <= a.Length - 1
      invariant forall k :: 0 <= k < i ==> a[k] == rest[k]
      invariant forall k :: i < k < a.Length ==> a[k] == rest[k - 1]
    {
      a[i] := a[i - 1];
      i := i - 1;
    }
    a[to] := s;
  }

  /** The reorder's slice shifting. */
  method ShiftInPlace(a: array<Song>, from: nat, to: nat)
    requires from < a.Length && to < a.Length
    modifies a
    ensures a[..] == Move(old(a[..]), from, to)
  {
    var s := a[from];
    CloseGap(a, from);
    OpenGap(a, to, s);
  }

  /** Restoring what any run snapshots gives the same jukebox back. */
  lemma {:induction false} RestoreUndoesSnapshot(st: JukeState, ps: seq<Payload>)
    ensures Restored(st, Some(Run(INITIAL, ps))) == Run(INITIAL, ps)
  {
    VotesBelowThreshold(ps);
  }

  class Jukebox {
    var queue: seq<Song>
    var nowPlaying: Option<Song>
    var history: seq<Song>
    var skipVotes: set<string>
    var skipThreshold: nat
    var lastSeq: map<string, nat>
    var lastResult: map<string, Result>

    function State(): JukeState
      reads this
    {
      JukeState(queue, nowPlaying, history, skipVotes, skipThreshold, lastSeq, lastResult)
    }

    constructor ()
      ensures State() == INITIAL
    {
      queue, nowPlaying, history := [], None, [];
      skipVotes, skipThreshold := {}, DEFAULT_SKIP_THRESHOLD;
      lastSeq, lastResult := map[], map[];
    }

    method View() returns (r: Result)
      ensures r == JukeboxSpec.View(State())
    {
      r := Result(true, "", nowPlaying, queue, |skipVotes|);
    }

    /** Applies one committed payload; a duplicate replays its client's cached result. */
    method Apply(p: Payload) returns (r: Result)
      modifies this
      ensures (State(), r) == JukeboxSpec.Apply(old(State()), p)
    {
      if p.Malformed? {
        return Refuse("bad command: " + p.reason);
      }
      var c := p.command;
      if c.clientId != "" && c.seqNo != 0 {
        if c.clientId in lastSeq && c.seqNo <= lastSeq[c.clientId] {
          if c.clientId in lastResult {
            return lastResult[c.clientId];
          }
        }
      }
      r := ApplyInner(c);
      if c.clientId != "" && c.seqNo != 0 {
        lastSeq := lastSeq[c.clientId := c.seqNo];
        lastResult := lastResult[c.clientId := r];
      }
    }

    method ApplyInner(c: Command) returns (r: Result)
      modifies this
      ensures (State(), r) == Perform(old(State()), c)
      decreases c.op != OP_PLAY_NEXT
    {
      if c.op == OP_NOOP {
        r := Result(true, "", None, [], 0);
      } else if c.op == OP_ENQUEUE {
        if c.song.None? || c.song.value.title == "" {
          return Refuse("enqueue requires a song with a title");
        }
        queue := queue + [c.song.value];
        r := View();
      } else if c.op == OP_PLAY_NEXT {
        if nowPlaying.Some? {
          history := history + [nowPlaying.value];
        }
        if |queue| == 0 {
          nowPlaying := None;
        } else {
          nowPlaying := Some(queue[0]);
          queue := queue[1..];
        }
        skipVotes := {};
        assert old(history) + [] == old(history);
        r := View();
      } else if c.op == OP_VOTE_SKIP {
        r := VoteSkip(c);
      } else if c.op == OP_REORDER {
        r := Reorder(c);
      } else {
        r := Refuse("unknown op: " + c.op);
      }
    }

    method VoteSkip(c: Command) returns (r: Result)
      requires c.op == OP_VOTE_SKIP
      modifies this
      ensures (State(), r) == Perform(old(State()), c)
      decreases c.op != OP_PLAY_NEXT, 0
    {
      if nowPlaying.None? {
        return Refuse("nothing playing");
      }
      var voter := c.voter;
      if voter == "" {
        voter := c.clientId;
      }
      if voter == "" {
        return Refuse("vote-skip requires a voter");
      }
      skipVotes := skipVotes + {voter};
      if |skipVotes| >= skipThreshold {
        r := ApplyInner(Plain(OP_PLAY_NEXT));
      } else {
        r := View();
      }
    }

    method Reorder(c: Command) returns (r: Result)
      requires c.op == OP_REORDER
      modifies this
      ensures (State(), r) == Perform(old(State()), c)
    {
      var from := Find(c.songId);
      if from == |queue| {
        return Refuse("song not found in queue");
      }
      var to := c.toIndex;
      if to < 0 {
        to := 0;
      }
      if to >= |queue| {
        to := |queue| - 1;
      }
      var songs := queue;
      var a := new Song[|songs|](i requires 0 <= i < |songs| => songs[i]);
      assert a[..] == songs;
      ShiftInPlace(a, from, to);
      queue := a[..];
      r := View();
    }

    /** The position of the first song with the id, the queue's length if there is none. */
    method Find(id: string) returns (i: nat)
      ensures i == FindSong(queue, id)
    {
      i := 0;
      while i < |queue| && queue[i].id != id
        invariant i <= |queue|
        invariant forall j :: 0 <= j < i ==> queue[j].id != id
      {
        i := i + 1;
      }
    }

    method Snapshot() returns (data: JukeState)
      ensures data == State()
    {
      data := JukeState(queue, nowPlaying, history, skipVotes, skipThreshold, lastSeq, lastResult);
    }

    /** No data leaves the jukebox as it is. */
    method Restore(data: Option<JukeState>)
      modifies this
      ensures State() == Restored(old(State()), data)
    {
      if data.None? {
        return;
      }
      var st := data.value;
      if st.skipThreshold == 0 {
        st := st.(skipThreshold := DEFAULT_SKIP_THRESHOLD);
      }
      queue, nowPlaying, history := st.queue, st.nowPlaying, st.history;
      skipVotes, skipThreshold := st.skipVotes, st.skipThreshold;
      lastSeq, lastResult := st.lastSeq, st.lastResult;
    }
  }
}
