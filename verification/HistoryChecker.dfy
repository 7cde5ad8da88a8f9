/** The checker of recorded histories, against linearizability with points in time. */
module HistoryChecker {

  /** A finished call: when it began and ended, the command it appended, and the log it was shown. */
  datatype RequestInfo = RequestInfo(invocation: int, completion: int, command: nat, result: seq<nat>)

  datatype Status = Ok | NotAppended | NoCommonPrefix | NotLinearizable

  type History = seq<RequestInfo>

  // ---------------------------------------------------------------- what it means

  /** The call took effect at the given time, when the log was its result. */
  ghost predicate Explains(r: RequestInfo, log: seq<nat>, point: int) {
    r.invocation <= point <= r.completion && r.result <= log && r.result != [] && r.result[|r.result| - 1] == r.command
  }

  /** One log, and a point in time for every call, in the order of the log. */
  ghost predicate Linearizes(history: History, log: seq<nat>, points: map<RequestInfo, int>) {
    && (forall r :: r in history ==> r in points && Explains(r, log, points[r]))
    && (forall r, s :: r in history && s in history && |r.result| < |s.result| ==> points[r] <= points[s])
  }

  /** No two calls claim the same place in the log. */
  ghost predicate OwnPlaces(history: History) {
    && (forall r :: r in history ==> multiset(history)[r] == 1)
    && (forall r, s :: r in history && s in history && r != s ==> |r.result| != |s.result|)
  }

  ghost predicate Linearizable(history: History) {
    OwnPlaces(history) && exists log, points :: Linearizes(history, log, points)
  }

  // ---------------------------------------------------------------- what is checked

  ghost predicate ByLength(history: History) {
    forall i, j :: 0 <= i <= j < |history| ==> |history[i].result| <= |history[j].result|
  }

  predicate Appended(r: RequestInfo) { r.result != [] && r.result[|r.result| - 1] == r.command }

  ghost predicate SamePrefix(a: seq<nat>, b: seq<nat>) {
    |a| <= |b| && forall k :: 0 <= k < |a| ==> a[k] == b[k]
  }

  ghost predicate AllAppended(history: History) {
    forall i :: 0 <= i < |history| ==> Appended(history[i])
  }

  ghost predicate OneLog(history: History) {
    forall i :: 0 <= i < |history| ==> SamePrefix(history[i].result, history[|history| - 1].result)
  }

  ghost predicate InOrder(history: History) {
    forall i, j :: 0 <= j <= i < |history| ==> history[i].completion >= history[j].invocation
  }

  // ---------------------------------------------------------------- soundness

  /** The latest invocation among the calls that were shown at most n entries. */
  ghost function Latest(history: History, n: nat, floor: int): (t: int)
    ensures floor <= t
    ensures forall s :: s in history && |s.result| <= n ==> s.invocation <= t
    ensures t == floor || exists s :: s in history && |s.result| <= n && t == s.invocation
  {
    if history == [] then floor else
    var t := Latest(history[1..], n, floor);
    if |history[0].result| <= n && history[0].invocation > t then history[0].invocation else t
  }

  ghost function Points(history: History): map<RequestInfo, int> {
    map r | r in history :: Latest(history, |r.result|, r.invocation)
  }

  lemma CheckedPoint(history: History, r: RequestInfo)
    requires ByLength(history) && InOrder(history) && OwnPlaces(history) && r in history
    ensures r.invocation <= Points(history)[r] <= r.completion
  {
    var i :| 0 <= i < |history| && history[i] == r;
    forall s | s in history && |s.result| <= |r.result| ensures s.invocation <= r.completion {
      var j :| 0 <= j < |history| && history[j] == s;
      if i < j { assert s == r; }
    }
  }

  lemma LaterPoint(history: History, r: RequestInfo, s: RequestInfo)
    requires r in history && s in history && |r.result| < |s.result|
    ensures Points(history)[r] <= Points(history)[s]
  {}

  lemma CheckedLog(history: History, r: RequestInfo)
    requires AllAppended(history) && OneLog(history) && r in history
    ensures Appended(r) && r.result <= history[|history| - 1].result
  {
    var i :| 0 <= i < |history| && history[i] == r;
    assert SamePrefix(history[i].result, history[|history| - 1].result) && Appended(history[i]);
  }

  lemma CheckedLinearizes(history: History)
    requires ByLength(history) && AllAppended(history) && OneLog(history) && InOrder(history) && OwnPlaces(history)
    ensures Linearizable(history)
  {
    var log := if history == [] then [] else history[|history| - 1].result;
    var points := Points(history);
    forall r | r in history ensures r in points && Explains(r, log, points[r]) {
      CheckedPoint(history, r);
      CheckedLog(history, r);
    }
    forall r, s | r in history && s in history && |r.result| < |s.result| ensures points[r] <= points[s] {
      LaterPoint(history, r, s);
    }
    assert Linearizes(history, log, points);
  }

  // ---------------------------------------------------------------- completeness

  lemma LinearizesChecked(history: History, log: seq<nat>, points: map<RequestInfo, int>)
    requires ByLength(history) && OwnPlaces(history) && Linearizes(history, log, points)
    ensures AllAppended(history) && OneLog(history) && InOrder(history)
  {
    forall i | 0 <= i < |history|
      ensures Appended(history[i]) && SamePrefix(history[i].result, history[|history| - 1].result)
    {
      var r, s := history[i], history[|history| - 1];
      assert Explains(r, log, points[r]) && Explains(s, log, points[s]);
      assert |r.result| <= |s.result|;
    }
    forall i, j | 0 <= j <= i < |history| ensures history[i].completion >= history[j].invocation {
      var r, s := history[i], history[j];
      assert Explains(r, log, points[r]) && Explains(s, log, points[s]);
    }
  }

  /** The checks on a sorted copy decide linearizability, up to calls that claim the same place. */
  lemma CheckIsExact(history: History, sorted: History)
    requires multiset(history) == multiset(sorted) && ByLength(sorted)
    ensures Linearizable(history) <==> AllAppended(sorted) && OneLog(sorted) && InOrder(sorted) && OwnPlaces(history)
  {
    assert forall r :: r in history <==> r in multiset(history);
    assert forall r :: r in sorted <==> r in multiset(sorted);
    assert OwnPlaces(history) <==> OwnPlaces(sorted);
    if Linearizable(history) {
      var log, points :| Linearizes(history, log, points);
      assert Linearizes(sorted, log, points);
      LinearizesChecked(sorted, log, points);
    }
    if AllAppended(sorted) && OneLog(sorted) && InOrder(sorted) && OwnPlaces(history) {
      CheckedLinearizes(sorted);
      var log, points :| Linearizes(sorted, log, points);
      assert Linearizes(history, log, points);
    }
  }

  // ---------------------------------------------------------------- the checker

  /** Sorts by the length of the results. */
  method SortByLength(history: History) returns (sorted: History)
    ensures multiset(sorted) == multiset(history) && ByLength(sorted)
  {
    sorted := [];
    var i := 0;
    while i < |history|
      invariant 0 <= i <= |history| && ByLength(sorted) && multiset(sorted) == multiset(history[..i])
    {
      assert history[..i + 1] == history[..i] + [history[i]];
      sorted := Insert(sorted, history[i]);
      i := i + 1;
    }
    assert history[..i] == history;
  }

  method Insert(sorted: History, r: RequestInfo) returns (longer: History)
    requires ByLength(sorted)
    ensures multiset(longer) == multiset(sorted) + multiset{r} && ByLength(longer)
  {
    var k := |sorted|;
    while k > 0 && |r.result| < |sorted[k - 1].result|
      invariant 0 <= k <= |sorted| && forall j :: k <= j < |sorted| ==> |r.result| < |sorted[j].result|
    {
      k := k - 1;
    }
    longer := sorted[..k] + [r] + sorted[k..];
    Inserted(sorted, k, r);
  }

  lemma Inserted(sorted: History, k: nat, r: RequestInfo)
    requires ByLength(sorted) && k <= |sorted|
    requires k > 0 ==> |sorted[k - 1].result| <= |r.result|
    requires forall j :: k <= j < |sorted| ==> |r.result| < |sorted[j].result|
    ensures var longer := sorted[..k] + [r] + sorted[k..];
            multiset(longer) == multiset(sorted) + multiset{r} && ByLength(longer)
  {
    assert sorted == sorted[..k] + sorted[k..];
    var longer := sorted[..k] + [r] + sorted[k..];
    forall i, j | 0 <= i <= j < |longer| ensures |longer[i].result| <= |longer[j].result| {
      InsertedPair(sorted, k, r, i, j);
    }
  }

  lemma InsertedPair(sorted: History, k: nat, r: RequestInfo, i: nat, j: nat)
    requires ByLength(sorted) && i <= j <= |sorted| && k <= |sorted|
    requires k > 0 ==> |sorted[k - 1].result| <= |r.result|
    requires forall j :: k <= j < |sorted| ==> |r.result| < |sorted[j].result|
    ensures var longer := sorted[..k] + [r] + sorted[k..]; |longer[i].result| <= |longer[j].result|
  {
    if i < k && j == k {
      assert |sorted[i].result| <= |sorted[k - 1].result|;
    }
  }

  /** Accepts a history if and only if it is linearizable, as long as no two calls claim the same
      place in the log. Every result must hold at least one command. */
  method CheckLinearizability(history: History) returns (status: Status, ghost sorted: History)
    requires forall r :: r in history ==> r.result != []
    ensures multiset(sorted) == multiset(history) && ByLength(sorted)
    ensures status == Ok <==> AllAppended(sorted) && OneLog(sorted) && InOrder(sorted)
    ensures Linearizable(history) <==> status == Ok && OwnPlaces(history)
    ensures status == NotAppended <==> exists r :: r in history && !Appended(r)
  {
    var ordered := SortByLength(history);
    sorted := ordered;
    CheckIsExact(history, sorted);
    assert forall r :: r in history <==> r in multiset(history);
    assert forall r :: r in sorted <==> r in multiset(sorted);
    status := Ok;
    var i := 0;
    while i < |ordered|
      invariant 0 <= i <= |ordered| && forall k :: 0 <= k < i ==> Appended(ordered[k])
    {
      if ordered[i].result[|ordered[i].result| - 1] != ordered[i].command {
        assert ordered[i] in history && !Appended(ordered[i]);
        status := NotAppended;
        return;
      }
      i := i + 1;
    }
    var same := CheckPrefixes(ordered);
    if !same {
      status := NoCommonPrefix;
      return;
    }
    var inOrder := CheckOrder(ordered);
    if !inOrder {
      status := NotLinearizable;
    }
  }

  method CheckPrefixes(sorted: History) returns (same: bool)
    requires ByLength(sorted)
    ensures same <==> OneLog(sorted)
  {
    var i := 0;
    while i + 1 < |sorted|
      invariant 0 <= i && (i < |sorted| || |sorted| == 0 == i)
      invariant forall k :: 0 <= k < i ==> SamePrefix(sorted[k].result, sorted[|sorted| - 1].result)
    {
      var a, b := sorted[i].result, sorted[|sorted| - 1].result;
      var index := 0;
      while index < |a|
        invariant 0 <= index <= |a| && forall k :: 0 <= k < index ==> a[k] == b[k]
      {
        if a[index] != b[index] {
          assert !SamePrefix(a, b);
          return false;
        }
        index := index + 1;
      }
      assert SamePrefix(a, b);
      i := i + 1;
    }
    return true;
  }

  method CheckOrder(sorted: History) returns (ordered: bool)
    ensures ordered <==> InOrder(sorted)
  {
    var i := 0;
    while i < |sorted|
      invariant 0 <= i <= |sorted|
      invariant forall k, j :: 0 <= j <= k < i ==> sorted[k].completion >= sorted[j].invocation
    {
      var index := 0;
      while index < |sorted|
        invariant 0 <= index <= |sorted|
        invariant forall j :: 0 <= j < index && j <= i ==> sorted[i].completion >= sorted[j].invocation
      {
        if sorted[i].completion < sorted[index].invocation && i >= index {
          return false;
        }
        index := index + 1;
      }
      i := i + 1;
    }
    return true;
  }

  /** Two calls that claim the same place are not noticed. */
  method SamePlaceAccepted() returns (history: History, status: Status)
    ensures status == Ok && !Linearizable(history)
  {
    var r := RequestInfo(0, 1, 5, [5]);
    history := [r, r];
    ghost var sorted;
    status, sorted := CheckLinearizability(history);
    assert multiset(history)[r] == 2;
    OnlyCopies(sorted, r);
  }

  lemma OnlyCopies(sorted: History, r: RequestInfo)
    requires multiset(sorted) == multiset{r, r}
    ensures sorted == [r, r]
  {
    assert |multiset(sorted)| == 2;
    assert sorted[0] in multiset(sorted) && sorted[1] in multiset(sorted);
  }
}
