/**
 Durable state as a value: the contract every storage back end meets
 (internal/store/store.go), with each storage call as a `Write`.
 */
module Storage {
  import opened JukeboxTypes
  import opened RaftLog

  datatype HardState = HardState(term: nat, votedFor: Id)

  datatype Snapshot = Snapshot(lastIndex: nat, lastTerm: nat, data: Option<JukeState>)

  datatype Disk = Disk(hard: HardState, log: map<nat, Entry>, snap: Snapshot)

  datatype Write =
    | SaveHard(hard: HardState)
    | Append(entries: seq<Entry>)
    | TruncateSuffix(from: nat)
    | TruncatePrefix(upTo: nat)
    | SaveSnap(snap: Snapshot)

  const EMPTY_DISK: Disk := Disk(HardState(0, ""), map[], Snapshot(0, 0, None))

  function PutAll(log: map<nat, Entry>, es: seq<Entry>): map<nat, Entry>
    decreases |es|
  {
    if es == [] then log else PutAll(log[es[0].index := es[0]], es[1..])
  }

  function DropFrom(log: map<nat, Entry>, from: nat): map<nat, Entry> {
    map i | i in log && i < from :: log[i]
  }

  function DropUpTo(log: map<nat, Entry>, upTo: nat): map<nat, Entry> {
    map i | i in log && i > upTo :: log[i]
  }

  function Do(d: Disk, w: Write): Disk {
    match w
    case SaveHard(hard) => d.(hard := hard)
    case Append(es) => d.(log := PutAll(d.log, es))
    case TruncateSuffix(from) => d.(log := DropFrom(d.log, from))
    case TruncatePrefix(upTo) => d.(log := DropUpTo(d.log, upTo))
    case SaveSnap(snap) => d.(snap := snap)
  }

  function Replay(d: Disk, ws: seq<Write>): Disk
    decreases |ws|
  {
    if ws == [] then d else Replay(Do(d, ws[0]), ws[1..])
  }

  /** The stored entries with an index below `bound`, in ascending order. */
  function EntriesBelow(log: map<nat, Entry>, bound: nat): seq<Entry> {
    if bound == 0 then []
    else EntriesBelow(log, bound - 1) + (if bound - 1 in log then [log[bound - 1]] else [])
  }

  ghost predicate Bounds(log: map<nat, Entry>, bound: nat) {
    forall i :: i in log ==> i < bound
  }

  lemma HasBound(log: map<nat, Entry>)
    ensures exists b: nat :: Bounds(log, b)
    decreases |log|
  {
    if log == map[] {
      assert Bounds(log, 0);
    } else {
      var i :| i in log;
      var rest := map j | j in log && j != i :: log[j];
      assert rest.Keys == log.Keys - {i};
      assert |rest.Keys| < |log.Keys|;
      HasBound(rest);
      var b: nat :| Bounds(rest, b);
      forall j | j in log ensures j < if i < b then b else i + 1 {
        if j != i { assert j in rest; }
      }
      assert Bounds(log, if i < b then b else i + 1);
    }
  }

  /** All stored entries in ascending index order. */
  ghost function Listing(log: map<nat, Entry>): seq<Entry> {
    HasBound(log);
    var b: nat :| Bounds(log, b);
    EntriesBelow(log, b)
  }

  lemma EntriesBelowAny(log: map<nat, Entry>, a: nat, b: nat)
    requires Bounds(log, a) && a <= b
    ensures EntriesBelow(log, b) == EntriesBelow(log, a)
  {
    if a < b { EntriesBelowAny(log, a, b - 1); }
  }

  lemma ListingIs(log: map<nat, Entry>, bound: nat)
    requires Bounds(log, bound)
    ensures Listing(log) == EntriesBelow(log, bound)
  {
    HasBound(log);
    var b: nat :| Bounds(log, b) && Listing(log) == EntriesBelow(log, b);
    if b <= bound { EntriesBelowAny(log, b, bound); } else { EntriesBelowAny(log, bound, b); }
  }

  lemma ReplaySplit(d: Disk, a: seq<Write>, b: seq<Write>)
    ensures Replay(d, a + b) == Replay(Replay(d, a), b)
    decreases |a|
  {
    if a == [] {
      assert a + b == b;
    } else {
      assert (a + b)[1..] == a[1..] + b;
      ReplaySplit(Do(d, a[0]), a[1..], b);
    }
  }

  /** A later write to an index wins; other indexes keep their entry. */
  lemma PutAllAt(log: map<nat, Entry>, es: seq<Entry>, i: nat)
    requires forall j :: 0 <= j < |es| ==> es[j].index == es[0].index + j
    ensures i in PutAll(log, es) <==> i in log || (es != [] && es[0].index <= i < es[0].index + |es|)
    ensures i in PutAll(log, es) ==>
      PutAll(log, es)[i] == if es != [] && es[0].index <= i < es[0].index + |es| then es[i - es[0].index] else log[i]
    decreases |es|
  {
    if es != [] {
      var rest := es[1..];
      assert forall j :: 0 <= j < |rest| ==> rest[j].index == rest[0].index + j;
      PutAllAt(log[es[0].index := es[0]], rest, i);
    }
  }
}
