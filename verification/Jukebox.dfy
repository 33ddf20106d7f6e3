/**
 The replicated state machine: a shared music queue (internal/jukebox/jukebox.go).
 The JSON wire format is replaced by datatypes; `Malformed` stands for a payload
 that does not decode.
 */
module JukeboxTypes {

  datatype Option<+T> = None | Some(value: T)

  datatype Song = Song(id: string, title: string, addedBy: string)

  const OP_ENQUEUE := "enqueue"
  const OP_PLAY_NEXT := "play-next"
  const OP_VOTE_SKIP := "vote-skip"
  const OP_REORDER := "reorder"
  const OP_NOOP := "noop"

  const DEFAULT_SKIP_THRESHOLD: nat := 3

  /** One jukebox operation; `clientId`/`seqNo` tag it for duplicate suppression. */
  datatype Command = Command(
    op: string, clientId: string, seqNo: nat, song: Option<Song>,
    songId: string, toIndex: int, voter: string)

  /** What a log entry carries. */
  datatype Payload = Malformed(reason: string) | Decoded(command: Command)

  datatype Result = Result(
    ok: bool, error: string, nowPlaying: Option<Song>, queue: seq<Song>, skipVotes: nat)

  datatype JukeState = JukeState(
    queue: seq<Song>, nowPlaying: Option<Song>, history: seq<Song>,
    skipVotes: set<string>, skipThreshold: nat,
    lastSeq: map<string, nat>, lastResult: map<string, Result>)

  function Plain(op: string): Command {
    Command(op, "", 0, None, "", 0, "")
  }

  const NOOP: Payload := Decoded(Plain(OP_NOOP))
}

/** What one command does to the jukebox, as a function. */
module JukeboxSpec {
  import opened JukeboxTypes

  const INITIAL: JukeState := JukeState([], None, [], {}, DEFAULT_SKIP_THRESHOLD, map[], map[])

  function View(st: JukeState): Result {
    Result(true, "", st.nowPlaying, st.queue, |st.skipVotes|)
  }

  function Refuse(error: string): Result {
    Result(false, error, None, [], 0)
  }

  function Now(st: JukeState): seq<Song> {
    if st.nowPlaying.Some? then [st.nowPlaying.value] else []
  }

  function PlayNext(st: JukeState): JukeState {
    st.(history := st.history + Now(st),
        nowPlaying := if st.queue == [] then None else Some(st.queue[0]),
        queue := if st.queue == [] then [] else st.queue[1..],
        skipVotes := {})
  }

  /** The first position holding a song with the given id, or the length if there is none. */
  function FindSong(q: seq<Song>, id: string): (i: nat)
    ensures i <= |q|
    ensures i < |q| ==> q[i].id == id
    ensures forall j :: 0 <= j < i ==> q[j].id != id
  {
    if q == [] || q[0].id == id then 0 else 1 + FindSong(q[1..], id)
  }

  function Clamp(to: int, len: nat): nat
    requires len > 0
  {
    if to < 0 then 0 else if to >= len then len - 1 else to
  }

  function Remove(q: seq<Song>, i: nat): seq<Song>
    requires i < |q|
  {
    q[..i] + q[i + 1..]
  }

  function Insert(q: seq<Song>, i: nat, song: Song): seq<Song>
    requires i <= |q|
  {
    q[..i] + [song] + q[i..]
  }

  function Move(q: seq<Song>, from: nat, to: nat): seq<Song>
    requires from < |q| && to < |q|
  {
    Insert(Remove(q, from), to, q[from])
  }

  function Voter(c: Command): string {
    if c.voter != "" then c.voter else c.clientId
  }

  /** The effect of a command that is not a duplicate. */
  function Perform(st: JukeState, c: Command): (JukeState, Result) {
    if c.op == OP_NOOP then (st, Result(true, "", None, [], 0))
    else if c.op == OP_ENQUEUE then
      if c.song.None? || c.song.value.title == "" then (st, Refuse("enqueue requires a song with a title"))
      else var st' := st.(queue := st.queue + [c.song.value]); (st', View(st'))
    else if c.op == OP_PLAY_NEXT then var st' := PlayNext(st); (st', View(st'))
    else if c.op == OP_VOTE_SKIP then
      if st.nowPlaying.None? then (st, Refuse("nothing playing"))
      else if Voter(c) == "" then (st, Refuse("vote-skip requires a voter"))
      else
        var voted := st.(skipVotes := st.skipVotes + {Voter(c)});
        var st' := if |voted.skipVotes| >= voted.skipThreshold then PlayNext(voted) else voted;
        (st', View(st'))
    else if c.op == OP_REORDER then
      var from := FindSong(st.queue, c.songId);
      if from == |st.queue| then (st, Refuse("song not found in queue"))
      else
        var st' := st.(queue := Move(st.queue, from, Clamp(c.toIndex, |st.queue|)));
        (st', View(st'))
    else (st, Refuse("unknown op: " + c.op))
  }

  predicate Tagged(c: Command) {
    c.clientId != "" && c.seqNo != 0
  }

  /** A tagged command at or below its client's last applied number, with a cached result. */
  predicate Duplicate(st: JukeState, c: Command) {
    && Tagged(c) && c.clientId in st.lastSeq && c.seqNo <= st.lastSeq[c.clientId]
    && c.clientId in st.lastResult
  }

  function Apply(st: JukeState, p: Payload): (JukeState, Result) {
    match p
    case Malformed(reason) => (st, Refuse("bad command: " + reason))
    case Decoded(c) =>
      if Duplicate(st, c) then (st, st.lastResult[c.clientId])
      else
        var (st', res) := Perform(st, c);
        if Tagged(c) then
          (st'.(lastSeq := st'.lastSeq[c.clientId := c.seqNo], lastResult := st'.lastResult[c.clientId := res]), res)
        else (st', res)
  }

  /** What Restore leaves: no data changes nothing, and an unset threshold becomes the default. */
  function Restored(st: JukeState, data: Option<JukeState>): JukeState {
    if data.None? then st
    else if data.value.skipThreshold == 0 then data.value.(skipThreshold := DEFAULT_SKIP_THRESHOLD)
    else data.value
  }

  /** The state after applying payloads in order. */
  function Run(st: JukeState, ps: seq<Payload>): JukeState
    decreases |ps|
  {
    if ps == [] then st else Apply(Run(st, ps[..|ps| - 1]), ps[|ps| - 1]).0
  }
}
