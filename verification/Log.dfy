/**
 Log entries and facts about whole (uncompacted) logs. Position i of the Raft
 papers is element i - 1 of the sequence.
 */
module RaftLog {
  import opened JukeboxTypes

  type Id = string

  datatype Entry = Entry(term: nat, index: nat, payload: Payload)

  type Log = seq<Entry>

  /** The term at index i; index 0 is the empty log's boundary, of term 0. */
  function TermAt(log: Log, i: nat): nat
    requires i <= |log|
  {
    if i == 0 then 0 else log[i - 1].term
  }

  function LastTerm(log: Log): nat {
    TermAt(log, |log|)
  }

  /** Figure 2's "at least as up-to-date" test of a claimed (index, term) against a log. */
  predicate UpToDate(claimIndex: nat, claimTerm: nat, log: Log) {
    if claimTerm != LastTerm(log) then claimTerm > LastTerm(log) else claimIndex >= |log|
  }

  /** Entries sit at their own index. */
  ghost predicate Indexed(log: Log) {
    forall i :: 0 <= i < |log| ==> log[i].index == i + 1
  }

  /** Entries sit at their own index, and terms are positive and never decrease. */
  ghost predicate WellFormed(log: Log) {
    && Indexed(log) && (forall i :: 0 <= i < |log| ==> 0 < log[i].term)
    && (forall i, j :: 0 <= i <= j < |log| ==> log[i].term <= log[j].term)
  }

  ghost predicate TermsUpTo(log: Log, t: nat) {
    forall i :: 0 <= i < |log| ==> log[i].term <= t
  }

  /** Two logs hold the same first k entries. */
  ghost predicate Agree(a: Log, b: Log, k: nat) {
    && k <= |a| && k <= |b|
    && (forall i :: 0 <= i < k ==> a[i] == b[i])
  }

  function Max(a: nat, b: nat): nat {
    if a < b then b else a
  }

  /** The number of elements of a set that a subset can leave out is bounded by its size. */
  lemma SubsetSize(a: set<Id>, b: set<Id>)
    requires a <= b
    ensures |a| <= |b|
  {
    assert b == a + (b - a);
  }

  /** Two majorities of one set share a member. */
  lemma QuorumsMeet(all: set<Id>, a: set<Id>, b: set<Id>) returns (x: Id)
    requires a <= all && b <= all
    requires |a| >= |all| / 2 + 1 && |b| >= |all| / 2 + 1
    ensures x in a && x in b
  {
    if a * b == {} {
      assert |a + b| == |a| + |b|;
      SubsetSize(a + b, all);
      assert false;
    }
    x :| x in a * b;
  }
}
