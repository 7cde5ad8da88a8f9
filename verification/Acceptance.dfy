/** The order of a log is the order in which its entries were accepted from clients, by whichever
    leaders: nothing is reordered on the way to the state machines.
 */
module Acceptance {
  import opened Entries
  import opened Replica
  import opened Cluster
  import opened Consensus
  import opened Coupling
  import opened Safety

  type Calls = seq<Call<Value>>

  /** The entry at the index was accepted by this call. */
  predicate AcceptedBy(c: Call<Value>, e: Entry<Value>, index: nat) {
    c.term == e.term && c.index == index && c.value == e.value
  }

  ghost predicate Called(calls: Calls, e: Entry<Value>, index: nat) {
    exists k :: 0 <= k < |calls| && AcceptedBy(calls[k], e, index)
  }

  /** Every one of these entries, which lie above the given index, was accepted by some call. */
  ghost predicate LogCalled(calls: Calls, log: Log, from: nat) {
    forall k {:trigger log[k]} :: 0 <= k < |log| ==> Called(calls, log[k], from + k + 1)
  }

  ghost predicate NodeCalled(calls: Calls, n: Node<Value>) {
    LogCalled(calls, n.log, 0) && (n.role == Leader ==> LogCalled(calls, n.pending, |n.log|))
  }

  ghost predicate RequestCalled(calls: Calls, r: AppendRequest<Value>) { LogCalled(calls, r.entries, r.prevIndex) }

  ghost predicate AllCalled(s: Net) {
    (forall i {:trigger s.nodes[i]} :: 0 <= i < |s.nodes| ==> NodeCalled(s.calls, s.nodes[i])) &&
    (forall link {:trigger s.rpcs[link]} :: link in s.rpcs ==> RequestCalled(s.calls, s.rpcs[link].request))
  }

  // ---------------------------------------------------------------- calls stay

  predicate SameCall(c: Call<Value>, c': Call<Value>) {
    c'.term == c.term && c'.index == c.index && c'.value == c.value
  }

  ghost predicate CallsGrow(calls: Calls, calls': Calls) {
    |calls| <= |calls'| && forall k {:trigger calls'[k]} :: 0 <= k < |calls| ==> SameCall(calls[k], calls'[k])
  }

  /** The calls of the new world: the old ones, and the one a leader has just accepted. */
  lemma CallsStep(s: Net, a: Action<Value>)
    requires Enabled(s, a)
    ensures var calls := Next(s, a).calls;
            CallsGrow(s.calls, calls) &&
            if a.Execute?
            then |calls| == |s.calls| + 1 &&
                 var n, c := s.nodes[a.node], calls[|s.calls|];
                 c.term == n.term && c.index == n.nextIndex[a.node] && c.value == a.value
            else |calls| == |s.calls|
  {}

  lemma LogStaysCalled(calls: Calls, calls': Calls, log: Log, from: nat)
    requires LogCalled(calls, log, from) && CallsGrow(calls, calls')
    ensures LogCalled(calls', log, from)
  {
    forall k | 0 <= k < |log| ensures Called(calls', log[k], from + k + 1) {
      assert Called(calls, log[k], from + k + 1);
      var j :| 0 <= j < |calls| && AcceptedBy(calls[j], log[k], from + k + 1);
      assert AcceptedBy(calls'[j], log[k], from + k + 1);
    }
  }

  // ---------------------------------------------------------------- every entry was accepted

  lemma JoinedCalled(calls: Calls, a: Log, b: Log, from: nat)
    requires LogCalled(calls, a, from) && LogCalled(calls, b, from + |a|)
    ensures LogCalled(calls, a + b, from)
  {
    forall k | 0 <= k < |a + b| ensures Called(calls, (a + b)[k], from + k + 1) {
      assert (a + b)[k] == if k < |a| then a[k] else b[k - |a|];
    }
  }

  lemma SliceCalled(calls: Calls, log: Log, lo: nat, hi: nat)
    requires LogCalled(calls, log, 0) && lo <= hi <= |log|
    ensures LogCalled(calls, log[lo..hi], lo)
  {
    forall k | 0 <= k < hi - lo ensures Called(calls, log[lo..hi][k], lo + k + 1) {
      assert log[lo..hi][k] == log[lo + k];
    }
  }

  lemma StoredCalled(calls: Calls, log: Log, commit: nat, r: AppendRequest<Value>)
    requires LogCalled(calls, log, 0) && RequestCalled(calls, r) && r.prevIndex <= |log| && commit <= |log|
    ensures LogCalled(calls, Stored(log, commit, r), 0)
  {
    var keep := Max(r.prevIndex, commit);
    SliceCalled(calls, log, 0, keep);
    var rest := Skip(r.entries, keep - r.prevIndex);
    forall k | 0 <= k < |rest| ensures Called(calls, rest[k], keep + k + 1) {
      assert rest[k] == r.entries[keep - r.prevIndex + k];
    }
    JoinedCalled(calls, log[..keep], rest, 0);
    assert log[0..keep] == log[..keep] == Take(log, keep);
  }

  lemma DeliveredLog(s: Net, link: Link, i: nat)
    requires CanDeliver(s, link) && i < |s.nodes|
    ensures |Delivered(s, link).nodes| == |s.nodes|
    ensures var n, n', r := s.nodes[i], Delivered(s, link).nodes[i], s.rpcs[link].request;
            (n'.log == n.log && (n'.role == Leader ==> n.role == Leader && n'.pending == n.pending)) ||
            (n'.role == Follower && LogMatches(n.log, r) && n'.log == Stored(n.log, n.commit, r))
  {}

  /** What a step does to the log and the unsaved entries of a node. */
  lemma LogStep(s: Net, a: Action<Value>, i: nat)
    requires Enabled(s, a) && i < |s.nodes|
    ensures |Next(s, a).nodes| == |s.nodes|
    ensures var n, n' := s.nodes[i], Next(s, a).nodes[i];
            || (n'.log == n.log &&
                (n'.role == Leader ==> n'.pending == [] || (n.role == Leader && n'.pending == n.pending)))
            || (a.Execute? && a.node == i && n.role == Leader && n'.log == n.log &&
                n'.pending == n.pending + [Entry(n.term, a.value)])
            || (n.role == Leader && n'.log == n.log + n.pending && n'.pending == [])
            || (a.Deliver? && n'.role == Follower && CanDeliver(s, a.link) &&
                var r := s.rpcs[a.link].request; LogMatches(n.log, r) && n'.log == Stored(n.log, n.commit, r))
  {
    if a.Deliver? { DeliveredLog(s, a.link, i); }
  }

  /** A leader accepts an entry at the index above its last one. */
  ghost predicate IndexesOk(s: Net) {
    forall i :: 0 <= i < |s.nodes| ==>
      s.nodes[i].commit <= |s.nodes[i].log| &&
      (Leads(s, i) ==> s.nodes[i].nextIndex[i] == |s.nodes[i].log| + |s.nodes[i].pending| + 1)
  }

  lemma NodeStep(s: Net, a: Action<Value>, i: nat)
    requires AllCalled(s) && IndexesOk(s) && Enabled(s, a) && i < |s.nodes|
    ensures |Next(s, a).nodes| == |s.nodes| && NodeCalled(Next(s, a).calls, Next(s, a).nodes[i])
  {
    CallsStep(s, a);
    LogStep(s, a, i);
    var calls, n := Next(s, a).calls, s.nodes[i];
    LogStaysCalled(s.calls, calls, n.log, 0);
    if n.role == Leader {
      LogStaysCalled(s.calls, calls, n.pending, |n.log|);
      JoinedCalled(calls, n.log, n.pending, 0);
    }
    if a.Execute? && a.node == i {
      var e := Entry(n.term, a.value);
      assert AcceptedBy(calls[|s.calls|], e, |n.log| + |n.pending| + 1);
      JoinedCalled(calls, n.pending, [e], |n.log|);
    } else if a.Deliver? {
      var r := s.rpcs[a.link].request;
      LogStaysCalled(s.calls, calls, r.entries, r.prevIndex);
      if LogMatches(n.log, r) { StoredCalled(calls, n.log, n.commit, r); }
    }
  }

  lemma RpcStep(s: Net, a: Action<Value>, link: Link)
    requires AllCalled(s) && Enabled(s, a) && link in Next(s, a).rpcs
    ensures RequestCalled(Next(s, a).calls, Next(s, a).rpcs[link].request)
  {
    CallsStep(s, a);
    var calls := Next(s, a).calls;
    if link in s.rpcs {
      var r := s.rpcs[link].request;
      assert Next(s, a).rpcs[link].request == r;
      LogStaysCalled(s.calls, calls, r.entries, r.prevIndex);
    } else {
      var n := s.nodes[a.node];
      JoinedCalled(s.calls, n.log, n.pending, 0);
      SliceCalled(s.calls, n.log + n.pending, n.nextIndex[a.follower] - 1, a.last);
    }
  }

  lemma CalledStep(s: Net, a: Action<Value>)
    requires AllCalled(s) && IndexesOk(s) && Enabled(s, a)
    ensures AllCalled(Next(s, a))
  {
    forall i | 0 <= i < |Next(s, a).nodes| ensures NodeCalled(Next(s, a).calls, Next(s, a).nodes[i]) {
      NodeStep(s, a, if i < |s.nodes| then i else 0);
    }
    forall link | link in Next(s, a).rpcs ensures RequestCalled(Next(s, a).calls, Next(s, a).rpcs[link].request) {
      RpcStep(s, a, link);
    }
  }

  // ---------------------------------------------------------------- late entries of old terms

  /** The leader of term t does not hold the entry of the call. */
  ghost predicate Lacks(h: State, t: nat, c: Call<Value>) {
    t in h.lead && 1 <= c.index && (c.index <= |h.lead[t].log| ==> h.lead[t].log[c.index - 1].term != c.term)
  }

  /** Of two calls of different terms, the later call has the higher term, or its entry is missing
      from the log of the other's leader. */
  ghost predicate InOrder(h: State, c: Call<Value>, d: Call<Value>) { c.term <= d.term || Lacks(h, c.term, d) }

  ghost predicate AllInOrder(calls: Calls, h: State) {
    forall k, m {:trigger InOrder(h, calls[k], calls[m])} :: 0 <= k < m < |calls| ==> InOrder(h, calls[k], calls[m])
  }

  lemma LacksStays(h: State, h': State, t: nat, c: Call<Value>)
    requires Inv(h) && Inv(h') && Evolves(h, h') && Lacks(h, t, c) && c.term < t
    ensures Lacks(h', t, c)
  {
    assert ReignOk(h, t) && ReignOk(h', t) && ReignEvolves(h.lead[t], h'.lead[t]);
  }

  /** A leader never held an entry that another leader has yet to create. */
  lemma NewIsLacking(h: State, t: nat, c: Call<Value>)
    requires Inv(h) && t in h.lead && c.term in h.lead && c.index == |h.lead[c.term].log| + 1
    ensures Lacks(h, t, c)
  {
    assert ReignOk(h, t);
    var log := h.lead[t].log;
    if c.index <= |log| { assert Anchored(h, log, c.index - 1); }
  }

  lemma OrderStep(s: Net, a: Action<Value>, h: State, h': State)
    requires Inv(h) && Inv(h') && Evolves(h, h') && Coupled(s, h) && Enabled(s, a) && AllInOrder(s.calls, h)
    ensures AllInOrder(Next(s, a).calls, h')
  {
    CallsStep(s, a);
    var calls, last := Next(s, a).calls, |s.calls|;
    forall k, m | 0 <= k < m < |calls| ensures InOrder(h', calls[k], calls[m]) {
      if m < last {
        assert InOrder(h, s.calls[k], s.calls[m]) && SameCall(s.calls[k], calls[k]) && SameCall(s.calls[m], calls[m]);
      } else {
        assert NodeOk(h, a.node, s.nodes[a.node]) && CallOk(s, h, s.calls[k]) && SameCall(s.calls[k], calls[k]);
        NewIsLacking(h, calls[k].term, calls[m]);
      }
      if calls[k].term > calls[m].term { LacksStays(h, h', calls[k].term, calls[m]); }
    }
  }

  // ---------------------------------------------------------------- runs

  lemma IndexesHold(s: Net, h: State)
    requires Inv(h) && Coupled(s, h)
    ensures IndexesOk(s)
  {
    forall i | 0 <= i < |s.nodes|
      ensures s.nodes[i].commit <= |s.nodes[i].log| &&
              (Leads(s, i) ==> s.nodes[i].nextIndex[i] == |s.nodes[i].log| + |s.nodes[i].pending| + 1)
    {
      assert NodeOk(h, i, s.nodes[i]) && NodeInv(h, i);
    }
  }

  lemma {:induction false} RunCalled(size: nat, worlds: seq<Net>, actions: seq<Action<Value>>, hs: seq<State>, i: nat)
    requires IsRun(size, worlds, actions) && IsHistory(worlds, hs) && i < |worlds|
    ensures AllCalled(worlds[i]) && AllInOrder(worlds[i].calls, hs[i])
  {
    if i > 0 {
      RunCalled(size, worlds, actions, hs, i - 1);
      var s, a := worlds[i - 1], actions[i - 1];
      assert Inv(hs[i - 1]) && Inv(hs[i]) && Evolves(hs[i - 1], hs[i]);
      assert Enabled(s, a) && worlds[i] == Next(s, a);
      IndexesHold(s, hs[i - 1]);
      CalledStep(s, a);
      OrderStep(s, a, hs[i - 1], hs[i]);
    }
  }

  // ---------------------------------------------------------------- logs follow acceptance

  /** Entry p + 1 of the log was accepted by call at[p], and the calls come in this order. */
  ghost predicate Follows(log: Log, calls: Calls, at: seq<nat>) {
    && |at| == |log|
    && (forall p :: 0 <= p < |at| ==> at[p] < |calls| && AcceptedBy(calls[at[p]], log[p], p + 1))
    && (forall p, q :: 0 <= p < q < |at| ==> at[p] < at[q])
  }

  lemma FindCalls(calls: Calls, log: Log) returns (at: seq<nat>)
    requires LogCalled(calls, log, 0)
    ensures |at| == |log| && forall p :: 0 <= p < |at| ==> at[p] < |calls| && AcceptedBy(calls[at[p]], log[p], p + 1)
  {
    at := [];
    for p := 0 to |log|
      invariant |at| == p && forall r :: 0 <= r < p ==> at[r] < |calls| && AcceptedBy(calls[at[r]], log[r], r + 1)
    {
      assert Called(calls, log[p], 0 + p + 1);
      var k :| 0 <= k < |calls| && AcceptedBy(calls[k], log[p], p + 1);
      at := at + [k];
    }
  }

  /** Of two entries of a log, the lower one was accepted first. */
  lemma LowerFirst(s: Net, h: State, log: Log, p: nat, q: nat, k: nat, m: nat)
    requires CallsOk(s, h) && AllInOrder(s.calls, h) && Sound(h, log) && p < q < |log|
    requires k < |s.calls| && AcceptedBy(s.calls[k], log[p], p + 1)
    requires m < |s.calls| && AcceptedBy(s.calls[m], log[q], q + 1)
    ensures k < m
  {
    assert Anchored(h, log, q);
    assert InOrder(h, s.calls[Min(k, m)], s.calls[Max(k, m)]);
  }

  /** The log of every node, at any time, lists accepted calls in the order of their acceptance. */
  lemma LogFollows(size: nat, worlds: seq<Net>, actions: seq<Action<Value>>, i: nat, a: nat) returns (at: seq<nat>)
    requires IsRun(size, worlds, actions) && i < |worlds| && a < |worlds[i].nodes|
    ensures Follows(FullLog(worlds[i].nodes[a]), worlds[i].calls, at)
  {
    var hs := RunHistory(size, worlds, actions);
    RunCalled(size, worlds, actions, hs, i);
    FullLogSound(worlds, hs, i, i, a);
    assert Inv(hs[i]);
    var s, n := worlds[i], worlds[i].nodes[a];
    if n.role == Leader { JoinedCalled(s.calls, n.log, n.pending, 0); }
    at := FindCalls(s.calls, FullLog(n));
    forall p, q | 0 <= p < q < |at| ensures at[p] < at[q] {
      LowerFirst(s, hs[i], FullLog(n), p, q, at[p], at[q]);
    }
  }

  /** Of two committed calls, the one accepted first has the lower index. */
  lemma CommittedInOrder(size: nat, worlds: seq<Net>, actions: seq<Action<Value>>, i: nat, k: nat, m: nat)
    requires IsRun(size, worlds, actions) && i < |worlds| && k < m < |worlds[i].calls|
    requires worlds[i].calls[k].phase.Committed? && worlds[i].calls[m].phase.Committed?
    ensures worlds[i].calls[k].index < worlds[i].calls[m].index
  {
    var hs := RunHistory(size, worlds, actions);
    RunCalled(size, worlds, actions, hs, i);
    ExecuteLinearizable(size, worlds, actions, i, k, m);
    var s, h := worlds[i], hs[i];
    assert Inv(h);
    CommittedOrder(s, h, k, m);
  }

  lemma CommittedOrder(s: Net, h: State, k: nat, m: nat)
    requires Inv(h) && CallsOk(s, h) && AllInOrder(s.calls, h) && k < m < |s.calls|
    requires s.calls[k].phase.Committed? && s.calls[m].phase.Committed? && s.calls[k].index != s.calls[m].index
    ensures s.calls[k].index < s.calls[m].index
  {
    var c, d := s.calls[k], s.calls[m];
    assert CallOk(s, h, c) && CallOk(s, h, d) && InOrder(h, c, d) && ReignOk(h, c.term);
    if d.index < c.index { KnownAgree(h, d.term, h.lead[d.term].log, d.index, c.term, h.lead[c.term].log, c.index); }
  }

  /** Calls keep their place, term, index and value as long as the run goes on. */
  lemma {:induction false} CallsPersist(size: nat, worlds: seq<Net>, actions: seq<Action<Value>>, i: nat, j: nat)
    requires IsRun(size, worlds, actions) && i <= j < |worlds|
    ensures CallsGrow(worlds[i].calls, worlds[j].calls)
    decreases j - i
  {
    if i < j {
      CallsPersist(size, worlds, actions, i, j - 1);
      assert Enabled(worlds[j - 1], actions[j - 1]) && worlds[j] == Next(worlds[j - 1], actions[j - 1]);
      CallsStep(worlds[j - 1], actions[j - 1]);
      GrowOn(worlds[i].calls, worlds[j - 1].calls, worlds[j].calls);
    }
  }

  lemma GrowOn(a: Calls, b: Calls, c: Calls)
    requires CallsGrow(a, b) && CallsGrow(b, c)
    ensures CallsGrow(a, c)
  {
    forall k | 0 <= k < |a| ensures SameCall(a[k], c[k]) { assert SameCall(a[k], b[k]) && SameCall(b[k], c[k]); }
  }
}
