/** Log entries, client requests and the small sequence vocabulary shared by every module. */
module Entries {

  datatype Option<+T> = None | Some(value: T)

  /** A log entry: the term of the leader that created it and what it carries. */
  datatype Entry<+V> = Entry(term: nat, value: V)

  /** A client request of the replicated state machine. */
  datatype Request = Request(requestId: nat, clientId: nat, command: string)

  type Hash = seq<nat>

  /** What a log entry stands for: a state machine request, or the identity of a queue message. */
  datatype Value =
    | Command(request: Request)
    | Message(producer: nat, hash: Hash, text: string)

  type Log = seq<Entry<Value>>

  function Min(a: nat, b: nat): nat { if a <= b then a else b }

  function Max(a: nat, b: nat): nat { if a >= b then a else b }

  /** The first k elements, or all of them when there are fewer. */
  function Take<T>(s: seq<T>, k: nat): seq<T> { if k <= |s| then s[..k] else s }

  /** All but the first k elements; empty when there are fewer. */
  function Skip<T>(s: seq<T>, k: nat): seq<T> { if k <= |s| then s[k..] else [] }

  function Values<V>(log: seq<Entry<V>>): (r: seq<V>)
    ensures |r| == |log|
    ensures forall i :: 0 <= i < |log| ==> r[i] == log[i].value
  {
    seq(|log|, i requires 0 <= i < |log| => log[i].value)
  }

  function LastTerm<V>(log: seq<Entry<V>>): nat { if |log| == 0 then 0 else log[|log| - 1].term }

  /** The two logs hold the same first k entries. */
  ghost predicate Agree(a: Log, b: Log, k: nat) {
    k <= |a| && k <= |b| && forall j :: 0 <= j < k ==> a[j] == b[j]
  }

  /** The entries at (one-based) index q carry the same term. */
  predicate Matches(a: Log, b: Log, q: nat) {
    1 <= q <= |a| && q <= |b| && a[q-1].term == b[q-1].term
  }

  predicate Sorted(log: Log) {
    forall j, k :: 0 <= j <= k < |log| ==> log[j].term <= log[k].term
  }

  /** Majorities of a cluster of the given size. */
  predicate IsQuorum(size: nat, q: set<nat>) {
    (forall n :: n in q ==> n < size) && |q| >= size / 2 + 1
  }

  lemma {:induction false} BoundedSetSize(size: nat, q: set<nat>)
    requires forall n :: n in q ==> n < size
    ensures |q| <= size
  {
    if size == 0 {
      assert q == {};
    } else {
      var rest := q - {size - 1};
      BoundedSetSize(size - 1, rest);
      assert q <= rest + {size - 1};
      if size - 1 in q { assert q == rest + {size - 1}; } else { assert q == rest; }
    }
  }

  /** Any two majorities share a node. */
  lemma QuorumsMeet(size: nat, a: set<nat>, b: set<nat>) returns (n: nat)
    requires IsQuorum(size, a) && IsQuorum(size, b)
    ensures n in a && n in b && n < size
  {
    BoundedSetSize(size, a + b);
    assert |a + b| == |a| + |b| - |a * b|;
    n :| n in a * b;
  }
}
