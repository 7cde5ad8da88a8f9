/** The leader's commit index as an order statistic of the match indexes. */
module CommitIndex {
  import opened Entries
  import opened Replica

  /** t lists the values of s from the largest to the smallest. */
  ghost predicate Descending(s: seq<nat>, t: seq<nat>) {
    multiset(s) == multiset(t) && forall i, j :: 0 <= i <= j < |t| ==> t[j] <= t[i]
  }

  function AtLeast(s: seq<nat>, x: nat): nat {
    if s == [] then 0 else AtLeast(s[..|s| - 1], x) + (if s[|s| - 1] >= x then 1 else 0)
  }

  lemma {:induction false} AtLeastHolders(s: seq<nat>, x: nat)
    ensures AtLeast(s, x) == |Holders(s, x)|
  {
    if s == [] {
      assert Holders(s, x) == {};
    } else {
      var last := |s| - 1;
      AtLeastHolders(s[..last], x);
      var before, all := Holders(s[..last], x), Holders(s, x);
      assert all == if s[last] >= x then before + {last} else before;
    }
  }

  lemma {:induction false} AtLeastSplit(a: seq<nat>, b: seq<nat>, x: nat)
    ensures AtLeast(a + b, x) == AtLeast(a, x) + AtLeast(b, x)
  {
    if b == [] {
      assert a + b == a;
    } else {
      var last := |b| - 1;
      assert (a + b)[..|a + b| - 1] == a + b[..last];
      AtLeastSplit(a, b[..last], x);
    }
  }

  lemma Removed(t: seq<nat>, k: nat, x: nat)
    requires k < |t|
    ensures var rest := t[..k] + t[k + 1..];
            && multiset(t) == multiset(rest) + multiset{t[k]}
            && AtLeast(t, x) == AtLeast(rest, x) + (if t[k] >= x then 1 else 0)
  {
    var tail := [t[k]] + t[k + 1..];
    assert t == t[..k] + tail;
    AtLeastSplit(t[..k], t[k + 1..], x);
    AtLeastSplit([t[k]], t[k + 1..], x);
    AtLeastSplit(t[..k], tail, x);
    assert [t[k]][..0] == [];
  }

  lemma {:induction false} AtLeastPermuted(s: seq<nat>, t: seq<nat>, x: nat)
    requires multiset(s) == multiset(t)
    ensures AtLeast(s, x) == AtLeast(t, x)
  {
    if s == [] {
      assert |multiset(s)| == |multiset(t)|;
    } else {
      var last := |s| - 1;
      assert s[last] in multiset(t);
      var k :| 0 <= k < |t| && t[k] == s[last];
      Removed(t, k, x);
      Removed(s, last, x);
      assert s[..last] + s[last + 1..] == s[..last];
      assert multiset(t[..k] + t[k + 1..]) == multiset(t) - multiset{t[k]};
      assert multiset(s[..last]) == multiset(s) - multiset{t[k]};
      AtLeastPermuted(s[..last], t[..k] + t[k + 1..], x);
    }
  }

  /** In a descending list the k-th value decides whether k values reach x. */
  lemma {:induction false} KthDecides(t: seq<nat>, k: nat, x: nat)
    requires 1 <= k <= |t| && forall i, j :: 0 <= i <= j < |t| ==> t[j] <= t[i]
    ensures AtLeast(t, x) >= k <==> t[k - 1] >= x
  {
    var last := |t| - 1;
    if t[last] >= x {
      AllReach(t, x);
    } else if k <= last {
      KthDecides(t[..last], k, x);
    } else {
      AtMost(t[..last], x);
    }
  }

  lemma {:induction false} AllReach(t: seq<nat>, x: nat)
    requires forall i :: 0 <= i < |t| ==> t[i] >= x
    ensures AtLeast(t, x) == |t|
  {
    if t != [] { AllReach(t[..|t| - 1], x); }
  }

  lemma {:induction false} AtMost(t: seq<nat>, x: nat)
    ensures AtLeast(t, x) <= |t|
  {
    if t != [] { AtMost(t[..|t| - 1], x); }
  }

  lemma HoldersReach(matchIndex: seq<nat>, sorted: seq<nat>, majority: nat, index: nat)
    requires Descending(matchIndex, sorted) && 1 <= majority <= |matchIndex|
    ensures |sorted| == |matchIndex|
    ensures |Holders(matchIndex, index)| >= majority <==> sorted[majority - 1] >= index
  {
    assert |multiset(matchIndex)| == |multiset(sorted)|;
    AtLeastHolders(matchIndex, index);
    AtLeastPermuted(matchIndex, sorted, index);
    KthDecides(sorted, majority, index);
  }

  lemma {:induction false} ScanIsStatistic(matchIndex: seq<nat>, sorted: seq<nat>, majority: nat,
                                           commit: nat, start: nat, index: nat)
    requires Descending(matchIndex, sorted) && 1 <= majority <= |matchIndex| == |sorted|
    ensures var best := Min(sorted[majority - 1], index);
            ScanCommit(matchIndex, commit, start, index, majority) ==
            if best > commit && best >= start then best else commit
    decreases index
  {
    HoldersReach(matchIndex, sorted, majority, index);
    if index > commit && index >= start && |Holders(matchIndex, index)| < majority {
      ScanIsStatistic(matchIndex, sorted, majority, commit, start, index - 1);
    }
  }

  /** The new commit index is the majority-th largest match index, cut to the saved log, when that is
      news and of the leader's own term; the entries up to it are applied once each, in order. */
  lemma CommitIsOrderStatistic<V>(n: Node<V>, size: nat, sorted: seq<nat>)
    requires Shaped(n, size) && 0 < size && Descending(n.matchIndex, sorted) && |n.applied| == n.commit <= |n.log|
    ensures |sorted| == size
    ensures var best, n' := Min(sorted[Majority(size) - 1], |n.log|), UpdateCommitIndex(n, size);
            && n' == n.(commit := n'.commit, applied := n'.applied)
            && n'.commit == (if best > n.commit && best >= n.start then best else n.commit)
            && |n'.applied| == n'.commit && n.applied <= n'.applied
            && forall k :: n.commit <= k < n'.commit ==> n'.applied[k] == n.log[k].value
  {
    HoldersReach(n.matchIndex, sorted, Majority(size), 0);
    ScanIsStatistic(n.matchIndex, sorted, Majority(size), n.commit, n.start, |n.log|);
  }

  // ---------------------------------------------------------------- the loops

  lemma HoldersGrow(matchIndex: seq<nat>, node: nat, index: nat)
    requires node < |matchIndex|
    ensures |Holders(matchIndex[..node + 1], index)| ==
            |Holders(matchIndex[..node], index)| + (if matchIndex[node] >= index then 1 else 0)
  {
    var a, b := Holders(matchIndex[..node], index), Holders(matchIndex[..node + 1], index);
    assert b == if matchIndex[node] >= index then a + {node} else a;
  }

  /** How many match indexes reach the index. */
  method CountHolders(matchIndex: seq<nat>, index: nat) returns (count: nat)
    ensures count == |Holders(matchIndex, index)|
  {
    count := 0;
    var node := 0;
    assert Holders(matchIndex[..0], index) == {};
    while node < |matchIndex|
      invariant node <= |matchIndex| && count == |Holders(matchIndex[..node], index)|
    {
      HoldersGrow(matchIndex, node, index);
      if matchIndex[node] >= index {
        count := count + 1;
      }
      node := node + 1;
    }
    assert matchIndex[..node] == matchIndex;
  }

  /** Looks downwards for an index of the leader's own term that a majority holds. */
  method FindCommitIndex(matchIndex: seq<nat>, commit: nat, start: nat, saved: nat, majority: nat) returns (found: nat)
    requires commit <= saved
    ensures found == ScanCommit(matchIndex, commit, start, saved, majority)
    ensures commit <= found <= saved
  {
    found := commit;
    var index: nat := saved;
    while index > commit && index >= start
      invariant index <= saved
      invariant ScanCommit(matchIndex, commit, start, saved, majority) ==
                ScanCommit(matchIndex, commit, start, index, majority)
      decreases index
    {
      var count := CountHolders(matchIndex, index);
      if count >= majority {
        found := index;
        return;
      }
      index := index - 1;
    }
  }
}
