/** What a node keeps on disk: its term and vote by name, and its log by index. */
module Storage {
  import opened Entries
  import opened Replica

  const CURRENT_TERM := "current_term"
  const VOTED_FOR := "voted_for"

  function VotedFor(raftState: map<string, nat>): Option<nat> {
    if VOTED_FOR in raftState then Some(raftState[VOTED_FOR]) else None
  }

  /** A log storage whose keys are 1, 2, ..., last. */
  ghost predicate Dense<V>(log: map<nat, Entry<V>>, last: nat) {
    forall k :: k in log <==> 1 <= k <= last
  }

  ghost function LogOf<V>(log: map<nat, Entry<V>>, last: nat): (r: seq<Entry<V>>)
    requires Dense(log, last)
    ensures |r| == last && forall i :: 0 <= i < last ==> r[i] == log[i + 1]
  {
    seq(last, i requires 0 <= i < last => log[i + 1])
  }

  /** The log after its tail above keep has made way for the entries of the request. */
  ghost predicate Written<V>(log: map<nat, Entry<V>>, last: nat, before: seq<Entry<V>>, keep: nat,
                             request: AppendRequest<V>)
    requires Dense(log, last) && request.prevIndex <= keep <= |before| && keep <= last
  {
    && (last == keep || last - request.prevIndex <= |request.entries|)
    && (forall k :: 1 <= k <= keep ==> log[k] == before[k - 1])
    && (forall k :: keep < k <= last ==> log[k] == request.entries[k - 1 - request.prevIndex])
  }

  function Truncated<V>(log: map<nat, Entry<V>>, keep: nat): map<nat, Entry<V>> {
    map k | k in log && k <= keep :: log[k]
  }

  lemma TruncatedDense<V>(log: map<nat, Entry<V>>, last: nat, keep: nat)
    requires Dense(log, last) && keep <= last
    ensures Dense(Truncated(log, keep), keep)
    ensures LogOf(Truncated(log, keep), keep) == LogOf(log, last)[..keep]
  {}

  lemma WrittenStart<V>(log: map<nat, Entry<V>>, before: seq<Entry<V>>, keep: nat, request: AppendRequest<V>)
    requires Dense(log, keep) && request.prevIndex <= keep <= |before| && LogOf(log, keep) == before[..keep]
    ensures Written(log, keep, before, keep, request)
  {
    forall k | 1 <= k <= keep ensures log[k] == before[k - 1] {
      assert LogOf(log, keep)[k - 1] == before[..keep][k - 1];
    }
  }

  lemma WrittenNext<V>(log: map<nat, Entry<V>>, last: nat, before: seq<Entry<V>>, keep: nat, request: AppendRequest<V>)
    requires Dense(log, last) && request.prevIndex <= keep <= |before| && keep <= last
    requires Written(log, last, before, keep, request) && last - request.prevIndex < |request.entries|
    ensures var log' := log[last + 1 := request.entries[last - request.prevIndex]];
            Dense(log', last + 1) && Written(log', last + 1, before, keep, request)
  {}

  lemma WrittenIsStored<V>(log: map<nat, Entry<V>>, last: nat, before: seq<Entry<V>>, commit: nat,
                           request: AppendRequest<V>)
    requires Dense(log, last) && Max(request.prevIndex, commit) <= |before| && Max(request.prevIndex, commit) <= last
    requires Written(log, last, before, Max(request.prevIndex, commit), request)
    requires last - request.prevIndex >= |request.entries|
    ensures LogOf(log, last) == Stored(before, commit, request)
  {}

  /** The batch that deletes the tail of the log and writes the new entries. */
  method WriteBatch<V>(log: map<nat, Entry<V>>, last: nat, commit: nat, request: AppendRequest<V>)
    returns (batch: map<nat, Entry<V>>, newLast: nat)
    requires Dense(log, last) && commit <= last && request.prevIndex <= last
    ensures Dense(batch, newLast) && LogOf(batch, newLast) == Stored(LogOf(log, last), commit, request)
  {
    ghost var before := LogOf(log, last);
    var prev, keep := request.prevIndex, Max(request.prevIndex, commit);
    TruncatedDense(log, last, keep);
    batch, newLast := Truncated(log, keep), keep;
    WrittenStart(batch, before, keep, request);
    while newLast - prev < |request.entries|
      invariant keep <= newLast && Dense(batch, newLast) && Written(batch, newLast, before, keep, request)
      decreases prev + |request.entries| - newLast
    {
      WrittenNext(batch, newLast, before, keep, request);
      batch, newLast := batch[newLast + 1 := request.entries[newLast - prev]], newLast + 1;
    }
    WrittenIsStored(batch, newLast, before, commit, request);
  }

  /** The entries appended one by one above last. */
  method PutAll<V>(log: map<nat, Entry<V>>, last: nat, entries: seq<Entry<V>>) returns (batch: map<nat, Entry<V>>)
    requires Dense(log, last)
    ensures Dense(batch, last + |entries|) && LogOf(batch, last + |entries|) == LogOf(log, last) + entries
  {
    batch := log;
    var index: nat := 0;
    while index < |entries|
      invariant index <= |entries| && Dense(batch, last + index)
      invariant LogOf(batch, last + index) == LogOf(log, last) + entries[..index]
    {
      DenseNext(batch, last + index, entries[index]);
      batch := batch[last + index + 1 := entries[index]];
      index := index + 1;
    }
  }

  lemma DenseNext<V>(log: map<nat, Entry<V>>, last: nat, entry: Entry<V>)
    requires Dense(log, last)
    ensures Dense(log[last + 1 := entry], last + 1)
    ensures LogOf(log[last + 1 := entry], last + 1) == LogOf(log, last) + [entry]
  {}
}
