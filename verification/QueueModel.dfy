/** The sequential queue the linearizability checker compares histories with (chaos/model.go). */
module QueueModel {
  import opened JukeboxTypes
  import opened JukeboxSpec
  import opened JukeboxLaws

  const SEP: char := 31 as char

  const KIND_ENQUEUE := "enqueue"
  const KIND_DEQUEUE := "dequeue"

  datatype Input = Input(kind: string, value: string)

  // ---- The queue as a delimited string ----

  function Join(q: seq<string>): string
    decreases |q|
  {
    if q == [] then "" else if |q| == 1 then q[0] else q[0] + [SEP] + Join(q[1..])
  }

  /** The pieces between separators; a string without one is its own only piece. */
  function Split(s: string): (r: seq<string>)
    ensures r != []
    decreases |s|
  {
    if s == "" then [""]
    else
      var rest := Split(s[1..]);
      if s[0] == SEP then [""] + rest else [[s[0]] + rest[0]] + rest[1..]
  }

  function EncodeQueue(q: seq<string>): string {
    Join(q)
  }

  function DecodeQueue(s: string): seq<string> {
    if s == "" then [] else Split(s)
  }

  predicate SepFree(s: string) {
    SEP !in s
  }

  ghost predicate AllSepFree(q: seq<string>) {
    forall i :: 0 <= i < |q| ==> SepFree(q[i])
  }

  function Count(s: string): nat {
    if s == "" then 0 else (if s[0] == SEP then 1 else 0) + Count(s[1..])
  }

  lemma {:induction false} CountZero(s: string)
    ensures Count(s) == 0 <==> SepFree(s)
    decreases |s|
  {
    if s != "" { CountZero(s[1..]); assert s == [s[0]] + s[1..]; }
  }

  lemma {:induction false} CountAdd(a: string, b: string)
    ensures Count(a + b) == Count(a) + Count(b)
    decreases |a|
  {
    if a == "" { assert a + b == b; } else { assert (a + b)[1..] == a[1..] + b; CountAdd(a[1..], b); }
  }

  lemma {:induction false} SplitLength(s: string)
    ensures |Split(s)| == Count(s) + 1
    decreases |s|
  {
    if s != "" { SplitLength(s[1..]); }
  }

  /** A queue of k elements joins into at least k - 1 separators, and more if an element holds one. */
  lemma {:induction false} JoinCount(q: seq<string>)
    requires q != []
    ensures Count(Join(q)) >= |q| - 1 && (Count(Join(q)) == |q| - 1 ==> AllSepFree(q))
    decreases |q|
  {
    CountZero(q[0]);
    if |q| > 1 {
      JoinCount(q[1..]);
      CountAdd(q[0] + [SEP], Join(q[1..]));
      CountAdd(q[0], [SEP]);
      assert Count([SEP]) == 1;
      assert q == [q[0]] + q[1..];
    }
  }

  lemma {:induction false} SplitPlain(x: string)
    requires SepFree(x)
    ensures Split(x) == [x]
    decreases |x|
  {
    if x != "" { SplitPlain(x[1..]); assert [x[0]] + x[1..] == x; }
  }

  lemma {:induction false} SplitFirst(x: string, t: string)
    requires SepFree(x)
    ensures Split(x + [SEP] + t) == [x] + Split(t)
    decreases |x|
  {
    var s := x + [SEP] + t;
    if x == "" {
      assert s[1..] == t;
    } else {
      assert s[1..] == x[1..] + [SEP] + t;
      SplitFirst(x[1..], t);
      assert [x[0]] + x[1..] == x;
    }
  }

  lemma {:induction false} SplitJoin(q: seq<string>)
    requires q != [] && AllSepFree(q)
    ensures Split(Join(q)) == q
    decreases |q|
  {
    if |q| == 1 {
      SplitPlain(q[0]);
    } else {
      SplitJoin(q[1..]);
      SplitFirst(q[0], Join(q[1..]));
      assert [q[0]] + q[1..] == q;
    }
  }

  /** The encoding loses nothing exactly on queues of separator-free elements other than the one empty string. */
  lemma RoundTripIff(q: seq<string>)
    ensures DecodeQueue(EncodeQueue(q)) == q <==> AllSepFree(q) && q != [""]
  {
    if q != [] {
      JoinCount(q);
      SplitLength(Join(q));
      if AllSepFree(q) { SplitJoin(q); }
      assert |q| > 1 ==> Join(q) != "";
      assert |q| == 1 ==> q == [q[0]];
    }
  }

  // ---- The model's step ----

  /** Whether the output is allowed in the state, and the state after. */
  function Step(state: string, input: Input, output: string): (bool, string) {
    var q := DecodeQueue(state);
    if input.kind == KIND_ENQUEUE then (true, EncodeQueue(q + [input.value]))
    else if input.kind == KIND_DEQUEUE then
      if q == [] then (output == "", state)
      else if output != q[0] then (false, state)
      else (true, EncodeQueue(q[1..]))
    else (false, state)
  }

  // ---- The jukebox's histories ----

  datatype Op = Op(input: Input, output: string)

  function Ids(q: seq<Song>): seq<string> {
    seq(|q|, i requires 0 <= i < |q| => q[i].id)
  }

  /** What chaos/harness.go records of a command: an enqueued id, or the id that play-next put on. */
  function Recorded(c: Command, r: Result): Op {
    if c.op == OP_ENQUEUE then Op(Input(KIND_ENQUEUE, if c.song.Some? then c.song.value.id else ""), "")
    else Op(Input(KIND_DEQUEUE, ""), if r.nowPlaying.Some? then r.nowPlaying.value.id else "")
  }

  function History(cs: seq<Command>): seq<Op>
    decreases |cs|
  {
    if cs == [] then []
    else
      var front, c := cs[..|cs| - 1], cs[|cs| - 1];
      History(front) + [Recorded(c, Perform(PerformAll(INITIAL, front), c).1)]
  }

  /** The model run over a history: whether every step is allowed, and the last state. */
  function Check(ops: seq<Op>): (bool, string)
    decreases |ops|
  {
    if ops == [] then (true, "")
    else
      var (ok, state) := Check(ops[..|ops| - 1]);
      var op := ops[|ops| - 1];
      var (allowed, state') := Step(state, op.input, op.output);
      (ok && allowed, state')
  }

  /** An enqueue or play-next whose id the encoding can carry. */
  predicate Fits(c: Command) {
    c.op == OP_PLAY_NEXT || (AddsSong(c) && c.song.value.id != "" && SepFree(c.song.value.id))
  }

  ghost predicate GoodIds(q: seq<Song>) {
    forall i :: 0 <= i < |q| ==> q[i].id != "" && SepFree(q[i].id)
  }

  lemma IdsCarried(q: seq<Song>)
    requires GoodIds(q)
    ensures DecodeQueue(EncodeQueue(Ids(q))) == Ids(q)
  {
    RoundTripIff(Ids(q));
    assert q != [] ==> Ids(q)[0] != "";
  }

  lemma StepRefines(st: JukeState, c: Command)
    requires GoodIds(st.queue) && Fits(c)
    ensures var (st', r) := Perform(st, c); var op := Recorded(c, r);
      GoodIds(st'.queue) && Step(EncodeQueue(Ids(st.queue)), op.input, op.output) == (true, EncodeQueue(Ids(st'.queue)))
  {
    var q := st.queue;
    IdsCarried(q);
    if c.op == OP_PLAY_NEXT {
      if q != [] { assert Ids(q)[1..] == Ids(q[1..]); }
    } else {
      assert Ids(q + [c.song.value]) == Ids(q) + [c.song.value.id];
    }
  }

  /** The jukebox refines the model: every history of fitting commands is accepted, step by step. */
  lemma {:induction false} JukeboxRefinesQueue(cs: seq<Command>)
    requires forall i :: 0 <= i < |cs| ==> Fits(cs[i])
    ensures var st := PerformAll(INITIAL, cs);
      GoodIds(st.queue) && Check(History(cs)) == (true, EncodeQueue(Ids(st.queue)))
    decreases |cs|
  {
    if cs != [] {
      var front, c := cs[..|cs| - 1], cs[|cs| - 1];
      JukeboxRefinesQueue(front);
      StepRefines(PerformAll(INITIAL, front), c);
      assert History(cs)[..|History(cs)| - 1] == History(front);
    }
  }

  /** The same for a log with retries, whose effective commands make up the history. */
  lemma LogRefinesQueue(ps: seq<Payload>)
    requires forall i :: 0 <= i < |Effective(ps)| ==> Fits(Effective(ps)[i])
    ensures Check(History(Effective(ps))) == (true, EncodeQueue(Ids(Run(INITIAL, ps).queue)))
  {
    JukeboxRefinesQueue(Effective(ps));
    ExactlyOnce(ps);
    assert Run(INITIAL, ps).queue == Visible(Run(INITIAL, ps)).queue;
  }

  // ---- Which ids the model can follow ----

  function Enqueue(id: string): Command {
    Plain(OP_ENQUEUE).(song := Some(Song(id, "t", "")))
  }

  /** One id enqueued before another, then played. */
  function Probe(id: string, other: string): seq<Command> {
    [Enqueue(id), Enqueue(other), Plain(OP_PLAY_NEXT)]
  }

  lemma ProbeHistory(id: string, other: string)
    ensures History(Probe(id, other)) ==
      [Op(Input(KIND_ENQUEUE, id), ""), Op(Input(KIND_ENQUEUE, other), ""), Op(Input(KIND_DEQUEUE, ""), id)]
  {
    var a, b, c := Enqueue(id), Enqueue(other), Plain(OP_PLAY_NEXT);
    assert [a, b, c][..2] == [a, b] && [a, b][..1] == [a] && [a][..0] == [];
    assert History([a]) == [Op(Input(KIND_ENQUEUE, id), "")];
    assert History([a, b]) == History([a]) + [Op(Input(KIND_ENQUEUE, other), "")];
    var s1 := Song(id, "t", "");
    assert PerformAll(INITIAL, [a]).queue == [s1];
    assert PerformAll(INITIAL, [a, b]).queue == [s1] + [Song(other, "t", "")];
    assert Perform(PerformAll(INITIAL, [a, b]), c).1.nowPlaying == Some(s1);
  }

  /** What the model holds after the two enqueues, and whether it allows the third step. */
  lemma ProbeCheck(id: string, other: string)
    ensures Check(History(Probe(id, other))).0 <==>
      var q := DecodeQueue(EncodeQueue(DecodeQueue(id) + [other])); if q == [] then id == "" else id == q[0]
  {
    ProbeHistory(id, other);
    var ops := History(Probe(id, other));
    var a, b := ops[0], ops[1];
    assert ops[..2] == [a, b] && [a, b][..1] == [a] && [a][..0] == [];
    assert [] + [id] == [id];
    assert Check([a]) == (true, id);
    assert Check([a, b]) == (true, EncodeQueue(DecodeQueue(id) + [other]));
  }

  lemma JoinCons(x: string, q: seq<string>)
    requires q != []
    ensures Join([x] + q) == x + [SEP] + Join(q)
  {
    assert ([x] + q)[1..] == q;
  }

  /** A character put in front of the first element is in front of the whole. */
  lemma JoinPrepend(c: char, x: string, rest: seq<string>)
    ensures Join([[c] + x] + rest) == [c] + Join([x] + rest)
  {
    if rest != [] {
      JoinCons([c] + x, rest);
      JoinCons(x, rest);
      Reassociate([c], x, Join(rest));
    }
  }

  lemma Reassociate(c: string, x: string, y: string)
    ensures (c + x) + [SEP] + y == c + (x + [SEP] + y)
  {
  }

  lemma {:induction false} JoinSplit(s: string)
    ensures Join(Split(s)) == s
    decreases |s|
  {
    if s != "" {
      JoinSplit(s[1..]);
      assert s == [s[0]] + s[1..];
      var rest := Split(s[1..]);
      if s[0] == SEP {
        JoinCons("", rest);
      } else {
        JoinPrepend(s[0], rest[0], rest[1..]);
        assert rest == [rest[0]] + rest[1..];
      }
    }
  }

  lemma {:induction false} JoinSnoc(q: seq<string>, x: string)
    requires q != []
    ensures Join(q + [x]) == Join(q) + [SEP] + x
    decreases |q|
  {
    if |q| == 1 {
      assert q + [x] == [q[0]] + [x];
      JoinCons(q[0], [x]);
    } else {
      JoinSnoc(q[1..], x);
      assert q + [x] == [q[0]] + (q[1..] + [x]);
      JoinCons(q[0], q[1..] + [x]);
      assert (q[0] + [SEP] + Join(q[1..])) + [SEP] + x == q[0] + [SEP] + (Join(q[1..]) + [SEP] + x);
    }
  }

  lemma JoinFirst(s: string, other: string)
    ensures EncodeQueue(Split(s) + [other]) == s + [SEP] + other
  {
    JoinSplit(s);
    JoinSnoc(Split(s), other);
  }

  /**
   The model follows the jukebox past an id, whatever fitting id comes next, if and only if the id is
   non-empty and separator-free.
   */
  lemma IdsFollowedIff(id: string, other: string)
    requires other != "" && SepFree(other)
    ensures Check(History(Probe(id, other))).0 <==> id != "" && SepFree(id)
  {
    ProbeCheck(id, other);
    if id == "" {
      assert [] + [other] == [other];
      SplitPlain(other);
    } else {
      JoinFirst(id, other);
      FirstPiece(id, other);
    }
  }

  lemma {:induction false} FirstPiece(s: string, other: string)
    ensures Split(s + [SEP] + other)[0] == s <==> SepFree(s)
    decreases |s|
  {
    var t := s + [SEP] + other;
    if s != "" {
      assert t[1..] == s[1..] + [SEP] + other;
      FirstPiece(s[1..], other);
      assert s == [s[0]] + s[1..];
    }
  }

  // ---- What the model accepts ----

  /** The abstract queue's moves: add at the end, take the first, or find the queue empty. */
  ghost predicate Moves(q: seq<string>, input: Input, output: string, q': seq<string>) {
    if input.kind == KIND_ENQUEUE then q' == q + [input.value]
    else input.kind == KIND_DEQUEUE && ([output] + q' == q || (q == q' == [] && output == ""))
  }

  /** A step is rejected, and then changes nothing, exactly when the decoded queue has no such move. */
  lemma StepIff(state: string, input: Input, output: string)
    ensures var (ok, state') := Step(state, input, output); var q := DecodeQueue(state);
      && (ok <==> exists q' :: Moves(q, input, output, q'))
      && (forall q' :: Moves(q, input, output, q') ==> state' == EncodeQueue(q'))
      && (!ok ==> state' == state)
  {
    var q := DecodeQueue(state);
    if input.kind == KIND_ENQUEUE {
      assert Moves(q, input, output, q + [input.value]);
    } else if input.kind == KIND_DEQUEUE {
      if q == [] {
        assert Moves(q, input, "", []);
        assert forall q' :: [output] + q' != [];
      } else {
        assert q == [q[0]] + q[1..];
        assert Moves(q, input, q[0], q[1..]);
        forall q' | [output] + q' == q ensures output == q[0] && q' == q[1..] { assert ([output] + q')[1..] == q'; }
      }
    }
  }

  function Put(ops: seq<Op>): seq<string>
    decreases |ops|
  {
    if ops == [] then []
    else
      var op := ops[|ops| - 1];
      Put(ops[..|ops| - 1]) + (if op.input.kind == KIND_ENQUEUE then [op.input.value] else [])
  }

  /** How many dequeues have returned something. */
  function Got(ops: seq<Op>): nat
    decreases |ops|
  {
    if ops == [] then 0
    else
      var op := ops[|ops| - 1];
      Got(ops[..|ops| - 1]) + (if op.input.kind == KIND_DEQUEUE && op.output != "" then 1 else 0)
  }

  /** Operation i is an enqueue, or a dequeue that returns the first value put and not yet got, or nothing when all were. */
  ghost predicate FirstIn(ops: seq<Op>, i: nat)
    requires i < |ops|
  {
    var put, got := Put(ops[..i]), Got(ops[..i]);
    || ops[i].input.kind == KIND_ENQUEUE
    || (ops[i].input.kind == KIND_DEQUEUE && ops[i].output == if got < |put| then put[got] else "")
  }

  ghost predicate AllFirstIn(ops: seq<Op>) {
    forall i: nat {:trigger FirstIn(ops, i)} :: i < |ops| ==> FirstIn(ops, i)
  }

  /** Every value put can be carried by the encoding. */
  ghost predicate Carried(ops: seq<Op>) {
    forall i :: 0 <= i < |ops| && ops[i].input.kind == KIND_ENQUEUE ==> ops[i].input.value != "" && SepFree(ops[i].input.value)
  }

  lemma FirstInLast(ops: seq<Op>)
    requires ops != []
    ensures AllFirstIn(ops) <==> AllFirstIn(ops[..|ops| - 1]) && FirstIn(ops, |ops| - 1)
  {
    var front := ops[..|ops| - 1];
    forall i: nat | i < |front| ensures FirstIn(front, i) <==> FirstIn(ops, i) { assert front[..i] == ops[..i]; }
  }

  ghost predicate PutWell(put: seq<string>) {
    forall i :: 0 <= i < |put| ==> put[i] != "" && SepFree(put[i])
  }

  lemma {:induction false} PutCarried(ops: seq<Op>)
    requires Carried(ops)
    ensures PutWell(Put(ops))
    decreases |ops|
  {
    if ops != [] { PutCarried(ops[..|ops| - 1]); }
  }

  /** One more operation on the queue of what was put and not yet got. */
  lemma OneInOneOut(put: seq<string>, got: nat, op: Op)
    requires got <= |put| && PutWell(put) && (op.input.kind == KIND_ENQUEUE ==> op.input.value != "")
    ensures var (ok, state') := Step(EncodeQueue(put[got..]), op.input, op.output);
      && (ok <==> op.input.kind == KIND_ENQUEUE || (op.input.kind == KIND_DEQUEUE && op.output == if got < |put| then put[got] else ""))
      && (ok && op.input.kind == KIND_ENQUEUE ==> state' == EncodeQueue((put + [op.input.value])[got..]))
      && (ok && op.input.kind == KIND_DEQUEUE ==> state' == EncodeQueue(put[if op.output != "" then got + 1 else got..]))
  {
    var q := put[got..];
    RoundTripIff(q);
    assert (put + [op.input.value])[got..] == q + [op.input.value];
    if got < |put| { assert q[1..] == put[got + 1..]; }
  }

  /** A history is accepted if and only if it is first in, first out. */
  lemma {:induction false} AcceptedIff(ops: seq<Op>)
    requires Carried(ops)
    ensures Check(ops).0 <==> AllFirstIn(ops)
    ensures Check(ops).0 ==> Got(ops) <= |Put(ops)| && Check(ops).1 == EncodeQueue(Put(ops)[Got(ops)..])
    decreases |ops|
  {
    if ops != [] {
      var front, op := ops[..|ops| - 1], ops[|ops| - 1];
      AcceptedIff(front);
      FirstInLast(ops);
      PutCarried(front);
      assert Put(front) + [] == Put(front);
      if Check(front).0 { OneInOneOut(Put(front), Got(front), op); }
    }
  }
}
