/** The producers' sequence counters: how many of a producer's messages the saved log holds.

    A counter is an unsigned 64-bit number in the program, so it is the integer here modulo 2^64.
 */
module Counters {
  import opened Entries
  import opened Replica
  import opened Storage
  import opened Metamorphosis

  type MsgLog = seq<Entry<Msg>>

  /** A producer without a counter has sent nothing. */
  function Counter(counters: map<nat, int>, p: nat): int { if p in counters then counters[p] else 0 }

  function Count(log: MsgLog, p: nat): nat {
    if log == [] then 0 else Count(log[..|log| - 1], p) + (if log[|log| - 1].value.producer == p then 1 else 0)
  }

  lemma {:induction false} CountSplit(a: MsgLog, b: MsgLog, p: nat)
    ensures Count(a + b, p) == Count(a, p) + Count(b, p)
  {
    if b == [] {
      assert a + b == a;
    } else {
      assert (a + b)[..|a + b| - 1] == a + b[..|b| - 1];
      CountSplit(a, b[..|b| - 1], p);
    }
  }

  ghost predicate Raised(before: map<nat, int>, after: map<nat, int>, log: MsgLog) {
    forall p: nat :: Counter(after, p) == Counter(before, p) + Count(log, p)
  }

  ghost predicate Lowered(before: map<nat, int>, after: map<nat, int>, log: MsgLog) {
    forall p: nat :: Counter(after, p) == Counter(before, p) - Count(log, p)
  }

  function Bump(counters: map<nat, int>, p: nat, d: int): map<nat, int> { counters[p := Counter(counters, p) + d] }

  lemma RaisedNext(before: map<nat, int>, after: map<nat, int>, log: MsgLog, e: Entry<Msg>)
    requires Raised(before, after, log)
    ensures Raised(before, Bump(after, e.value.producer, 1), log + [e])
  {
    assert (log + [e])[..|log|] == log;
    forall p: nat ensures Count(log + [e], p) == Count(log, p) + (if e.value.producer == p then 1 else 0) {}
  }

  lemma LoweredNext(before: map<nat, int>, after: map<nat, int>, log: MsgLog, e: Entry<Msg>)
    requires Lowered(before, after, log)
    ensures Lowered(before, Bump(after, e.value.producer, -1), log + [e])
  {
    assert (log + [e])[..|log|] == log;
    forall p: nat ensures Count(log + [e], p) == Count(log, p) + (if e.value.producer == p then 1 else 0) {}
  }

  // ---------------------------------------------------------------- the loops

  /** Start-up: count what is in the log. */
  method CountAll(log: map<nat, Entry<Msg>>, last: nat) returns (counters: map<nat, int>)
    requires Dense(log, last)
    ensures Raised(map[], counters, LogOf(log, last))
  {
    counters := map[];
    var index := 1;
    while index <= last
      invariant 1 <= index <= last + 1 && Raised(map[], counters, LogOf(log, last)[..index - 1])
    {
      assert LogOf(log, last)[..index] == LogOf(log, last)[..index - 1] + [log[index]];
      RaisedNext(map[], counters, LogOf(log, last)[..index - 1], log[index]);
      counters := Bump(counters, log[index].value.producer, 1);
      index := index + 1;
    }
    assert LogOf(log, last)[..last] == LogOf(log, last);
  }

  /** What follows prev no longer counts. */
  method Uncount(before: map<nat, int>, log: map<nat, Entry<Msg>>, last: nat,
                 prev: nat) returns (counters: map<nat, int>)
    requires Dense(log, last) && prev <= last
    ensures Lowered(before, counters, LogOf(log, last)[prev..])
  {
    counters := before;
    var index := prev + 1;
    while index <= last
      invariant prev < index <= last + 1 && Lowered(before, counters, LogOf(log, last)[prev..index - 1])
    {
      assert LogOf(log, last)[prev..index] == LogOf(log, last)[prev..index - 1] + [log[index]];
      LoweredNext(before, counters, LogOf(log, last)[prev..index - 1], log[index]);
      counters := Bump(counters, log[index].value.producer, -1);
      index := index + 1;
    }
    assert LogOf(log, last)[prev..last] == LogOf(log, last)[prev..];
  }

  /** The batch that deletes the tail of the log and writes the new entries, which are counted. */
  method CountedBatch(log: map<nat, Entry<Msg>>, last: nat, commit: nat, request: AppendRequest<Msg>,
                      before: map<nat, int>)
    returns (batch: map<nat, Entry<Msg>>, newLast: nat, counters: map<nat, int>)
    requires Dense(log, last) && commit <= last && request.prevIndex <= last
    ensures Dense(batch, newLast) && LogOf(batch, newLast) == Stored(LogOf(log, last), commit, request)
    ensures Raised(before, counters, Skip(request.entries, Max(request.prevIndex, commit) - request.prevIndex))
  {
    ghost var stored := LogOf(log, last);
    var prev, keep := request.prevIndex, Max(request.prevIndex, commit);
    batch, newLast, counters := Truncated(log, keep), keep, before;
    BatchStart(log, last, keep, request);
    while newLast - prev < |request.entries|
      invariant keep <= newLast && Batched(batch, newLast, stored, keep, request)
      invariant Counted(before, counters, request.entries, keep - prev, newLast - prev)
      decreases prev + |request.entries| - newLast
    {
      var entry := request.entries[newLast - prev];
      BatchNext(batch, newLast, stored, keep, request);
      RaisedOn(before, counters, request.entries, keep - prev, newLast - prev);
      batch, newLast := batch[newLast + 1 := entry], newLast + 1;
      counters := Bump(counters, entry.value.producer, 1);
    }
    WrittenIsStored(batch, newLast, stored, commit, request);
    RaisedAll(before, counters, request.entries, keep - prev, newLast - prev);
  }

  ghost predicate Batched(batch: map<nat, Entry<Msg>>, newLast: nat, stored: MsgLog, keep: nat,
                          request: AppendRequest<Msg>)
  {
    && request.prevIndex <= keep <= |stored| && keep <= newLast && Dense(batch, newLast)
    && Written(batch, newLast, stored, keep, request)
  }

  lemma BatchStart(log: map<nat, Entry<Msg>>, last: nat, keep: nat, request: AppendRequest<Msg>)
    requires Dense(log, last) && request.prevIndex <= keep <= last
    ensures Batched(Truncated(log, keep), keep, LogOf(log, last), keep, request)
  {
    TruncatedDense(log, last, keep);
    WrittenStart(Truncated(log, keep), LogOf(log, last), keep, request);
  }

  lemma BatchNext(batch: map<nat, Entry<Msg>>, newLast: nat, stored: MsgLog, keep: nat, request: AppendRequest<Msg>)
    requires Batched(batch, newLast, stored, keep, request) && newLast - request.prevIndex < |request.entries|
    ensures var entry := request.entries[newLast - request.prevIndex];
            Batched(batch[newLast + 1 := entry], newLast + 1, stored, keep, request)
  {
    WrittenNext(batch, newLast, stored, keep, request);
  }

  lemma RaisedAll(before: map<nat, int>, after: map<nat, int>, entries: MsgLog, from: nat, k: nat)
    requires k >= |entries| && Counted(before, after, entries, from, k)
    ensures Raised(before, after, Skip(entries, from))
  {
    assert Take(entries, k) == entries;
  }

  lemma RaisedOn(before: map<nat, int>, after: map<nat, int>, entries: MsgLog, from: nat, k: nat)
    requires from <= k < |entries| && Counted(before, after, entries, from, k)
    ensures Counted(before, Bump(after, entries[k].value.producer, 1), entries, from, k + 1)
  {
    RaisedNext(before, after, Skip(Take(entries, k), from), entries[k]);
    assert Skip(Take(entries, k + 1), from) == Skip(Take(entries, k), from) + [entries[k]];
  }

  /** The first k entries, from some index on, have been counted. */
  ghost predicate Counted(before: map<nat, int>, after: map<nat, int>, entries: MsgLog, from: nat, k: nat) {
    Raised(before, after, Skip(Take(entries, k), from))
  }

  /** The leader's unsaved entries are saved and counted; their producers may append again. */
  method CountedPutAll(log: map<nat, Entry<Msg>>, last: nat, entries: MsgLog, before: map<nat, int>, waiting: set<nat>)
    returns (batch: map<nat, Entry<Msg>>, counters: map<nat, int>, producers: set<nat>)
    requires Dense(log, last)
    ensures Dense(batch, last + |entries|) && LogOf(batch, last + |entries|) == LogOf(log, last) + entries
    ensures Raised(before, counters, entries)
    ensures producers == waiting - Producers(entries)
  {
    batch, counters, producers := log, before, waiting;
    var index: nat := 0;
    while index < |entries|
      invariant index <= |entries| && Dense(batch, last + index)
      invariant LogOf(batch, last + index) == LogOf(log, last) + entries[..index]
      invariant Raised(before, counters, entries[..index]) && producers == waiting - Producers(entries[..index])
    {
      var entry := entries[index];
      assert entries[..index + 1] == entries[..index] + [entry];
      DenseNext(batch, last + index, entry);
      RaisedNext(before, counters, entries[..index], entry);
      batch := batch[last + index + 1 := entry];
      counters := Bump(counters, entry.value.producer, 1);
      producers := producers - {entry.value.producer};
      index := index + 1;
    }
    assert entries[..index] == entries;
  }

  function Producers(log: MsgLog): set<nat> { set e | e in log :: e.value.producer }

  // ---------------------------------------------------------------- what a counter means

  /** By how much a counter misses the number of the producer's messages in the log. */
  ghost function Error(counters: map<nat, int>, log: MsgLog, p: nat): int { Counter(counters, p) - Count(log, p) }

  /** After an accepted request every counter is off by what it was before, less the producer's
      committed messages above the previous index: they are uncounted but stay. */
  lemma AcceptedError(before: map<nat, int>, middle: map<nat, int>, after: map<nat, int>,
                      log: MsgLog, commit: nat, request: AppendRequest<Msg>, p: nat)
    requires commit <= |log| && request.prevIndex <= |log|
    requires Lowered(before, middle, log[request.prevIndex..])
    requires Raised(middle, after, Skip(request.entries, Max(request.prevIndex, commit) - request.prevIndex))
    ensures Error(after, Stored(log, commit, request), p) ==
            Error(before, log, p) - Count(log[request.prevIndex..Max(request.prevIndex, commit)], p)
  {
    var prev, keep := request.prevIndex, Max(request.prevIndex, commit);
    var added := Skip(request.entries, keep - prev);
    CountSplit(log[..keep], added, p);
    CountSplit(log[..prev], log[prev..], p);
    CountSplit(log[..prev], log[prev..keep], p);
    assert log == log[..prev] + log[prev..] && log[..keep] == log[..prev] + log[prev..keep];
    assert Counter(after, p) == Counter(middle, p) + Count(added, p);
    assert Counter(middle, p) == Counter(before, p) - Count(log[prev..], p);
  }

  lemma SavedError(before: map<nat, int>, after: map<nat, int>, log: MsgLog, pending: MsgLog)
    requires Raised(before, after, pending)
    ensures forall p: nat :: Error(after, log + pending, p) == Error(before, log, p)
  {
    forall p: nat ensures Error(after, log + pending, p) == Error(before, log, p) { CountSplit(log, pending, p); }
  }

  lemma {:induction false} CountZero(log: MsgLog, p: nat)
    ensures Count(log, p) == 0 <==> p !in Producers(log)
  {
    if log != [] {
      var last := |log| - 1;
      CountZero(log[..last], p);
      assert log == log[..last] + [log[last]];
    }
  }

  /** An exact counter stays exact if and only if none of the producer's messages lies between the
      previous index and the commit index; otherwise it ends too low by their number. */
  lemma ExactIff(before: map<nat, int>, middle: map<nat, int>, after: map<nat, int>,
                 log: MsgLog, commit: nat, request: AppendRequest<Msg>, p: nat)
    requires commit <= |log| && request.prevIndex <= |log| && Counter(before, p) == Count(log, p)
    requires Lowered(before, middle, log[request.prevIndex..])
    requires Raised(middle, after, Skip(request.entries, Max(request.prevIndex, commit) - request.prevIndex))
    ensures Counter(after, p) == Count(Stored(log, commit, request), p) <==>
            p !in Producers(log[request.prevIndex..Max(request.prevIndex, commit)])
  {
    AcceptedError(before, middle, after, log, commit, request, p);
    CountZero(log[request.prevIndex..Max(request.prevIndex, commit)], p);
  }
}
