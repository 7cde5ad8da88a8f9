/** Every step of the cluster is matched by steps of its history: replication and commit. */
module ReplicationSteps {
  import opened Entries
  import opened Replica
  import opened Cluster
  import opened Consensus
  import opened ConsensusSteps
  import opened Coupling
  import opened ElectionSteps

  // ---------------------------------------------------------------- sending

  lemma SentRequest(h: State, i: nat, n: Node<Value>, f: nat, last: nat)
    requires Inv(h) && i < |h.peers| && NodeOk(h, i, n) && n.role == Leader && f < |h.peers| && f != i
    requires var next := n.nextIndex[f];
             1 <= next <= last + 1 && next - 1 <= |n.log| && last <= |n.log| + |n.pending|
    ensures RpcOk(h, Link(i, n.term, f), Sent(MakeRequest(n, i, n.nextIndex[f], last)))
  {
    assert NodeInv(h, i);
    assert SessionOk(h, n.term, f, n.nextIndex[f], n.matchIndex[f]);
    KnownLonger(h, n.term, n.log, h.lead[n.term].log, n.commit);
  }

  lemma SentRpcs(s: Net, h: State, i: nat, f: nat, last: nat)
    requires Inv(h) && NodesOk(s, h) && RpcsOk(s, h) && CanSend(s, i, f, last)
    ensures RpcsOk(Requested(s, i, f, last), h)
  {
    var s' := Requested(s, i, f, last);
    assert NodeOk(h, i, s.nodes[i]);
    SentRequest(h, i, s.nodes[i], f, last);
    forall link | link in s'.rpcs
      ensures RpcOk(h, link, s'.rpcs[link]) && SessionCall(s', link, s'.rpcs[link].request.prevIndex)
    {
      if link in s.rpcs { assert RpcOk(h, link, s.rpcs[link]); }
    }
  }

  lemma SendStep(s: Net, h: State, i: nat, f: nat, last: nat) returns (h': State)
    requires Inv(h) && Coupled(s, h) && CanSend(s, i, f, last)
    ensures Inv(h') && Evolves(h, h') && Coupled(Requested(s, i, f, last), h') && SameAccs(h, h')
    ensures h'.commits == h.commits
  {
    var s' := Requested(s, i, f, last);
    h' := h;
    EvolvesReflexive(h);
    forall j | 0 <= j < |s'.nodes| ensures NodeOk(h, j, s'.nodes[j]) { assert NodeOk(h, j, s.nodes[j]); }
    SentRpcs(s, h, i, f, last);
    VotingGrows(s, s', h);
    SameCalls(s, s', h);
  }

  // ---------------------------------------------------------------- client calls

  /** A call opened now begins after every committed index, or can never commit. */
  lemma OpensLater(h: State, h': State, t: nat, c1: Call<Value>, i: nat)
    requires Inv(h) && Evolves(h, h') && t in h.lead && i == |h.lead[t].log| + 1
    requires c1.phase.Committed? && ResultOk(h, c1, c1.phase.applied) && c1.index > 0
    ensures c1.index < i || Dead(h', t, i)
  {
    var c :| KnownBy(h, c, c1.term, h.lead[c1.term].log, c1.index);
    assert Chosen(h, c);
    if c.term < t {
      Completeness(h, c, t);
      assert ReignOk(h, t);
    } else if c.term > t {
      AppendDead(h, t, c.term);
      DeadStays(h, h', t, i);
    }
  }

  lemma OpenedCalls(s: Net, s': Net, h: State, h': State, i: nat, v: Value)
    requires Inv(h) && Coupled(s, h) && Leads(s, i) && s' == Opened(s, i, v)
    requires var t := s.nodes[i].term; t in h.lead && h' == Extended(h, t, Entry(t, v)) && Evolves(h, h')
    ensures CallsOk(s', h')
  {
    var n := s.nodes[i];
    assert NodeOk(h, i, n);
    var last := |s.calls|;
    forall k | 0 <= k < |s'.calls| ensures CallOk(s', h', s'.calls[k]) {
      if k < last {
        assert CallOk(s, h, s.calls[k]);
        CallStays(s, s', h, h', s.calls[k]);
      }
    }
    forall j | 0 <= j < |s'.nodes| ensures WaitingOk(s', j) {
      assert WaitingOk(s, j);
      forall index | index in s'.nodes[j].waiting ensures Registered(s', j, index, s'.nodes[j].waiting[index]) {
        if index in s.nodes[j].waiting { assert Registered(s, j, index, s.nodes[j].waiting[index]); }
      }
    }
    forall k | 0 <= k < last ensures s.calls[k].term == n.term ==> s.calls[k].index < s'.calls[last].index {
      assert CallOk(s, h, s.calls[k]);
    }
    forall k, m | 0 <= k < |s'.calls| && 0 <= m < |s'.calls| ensures RealTime(h', s'.calls[k], s'.calls[m]) {
      OpenedOrder(s, s', h, h', i, v, k, m);
    }
  }

  lemma OpenedOrder(s: Net, s': Net, h: State, h': State, i: nat, v: Value, k: nat, m: nat)
    requires Inv(h) && NodesOk(s, h) && CallsOk(s, h) && Leads(s, i) && s' == Opened(s, i, v)
    requires var t := s.nodes[i].term; t in h.lead && h' == Extended(h, t, Entry(t, v)) && Evolves(h, h')
    requires k < |s'.calls| && m < |s'.calls|
    ensures RealTime(h', s'.calls[k], s'.calls[m])
  {
    var last := |s.calls|;
    assert NodeOk(h, i, s.nodes[i]);
    if k < last && m < last {
      assert RealTime(h, s.calls[k], s.calls[m]);
      RealTimeStays(h, h', s.calls[k], s.calls[m]);
    } else if k < last && s.calls[k].phase.Committed? {
      assert CallOk(s, h, s.calls[k]);
      OpensLater(h, h', s.nodes[i].term, s.calls[k], s'.calls[last].index);
    }
  }

  lemma SubmittedNode(h: State, h': State, i: nat, n: Node<Value>, v: Value, id: nat)
    requires Inv(h) && i < |h.peers| && NodeOk(h, i, n) && n.role == Leader
    requires h' == Extended(h, n.term, Entry(n.term, v)) && Evolves(h, h')
    ensures NodeOk(h', i, Submit(n, i, v, id))
  {
    var n' := Submit(n, i, v, id);
    assert n'.log + n'.pending == n.log + n.pending + [Entry(n.term, v)];
    assert ReignOk(h, n.term);
    forall f | 0 <= f < |h.peers| && f != i
      ensures SessionOk(h', n.term, f, n'.nextIndex[f], n'.matchIndex[f])
    {
      assert SessionOk(h, n.term, f, n.nextIndex[f], n.matchIndex[f]);
      SessionStays(h, h', n.term, f, n.nextIndex[f], n.matchIndex[f]);
    }
  }

  /** Another leader leads another term. */
  lemma OtherTerms(s: Net, h: State, i: nat)
    requires NodesOk(s, h) && i < |s.nodes| && s.nodes[i].term in h.lead && h.lead[s.nodes[i].term].owner == i
    ensures forall j :: 0 <= j < |s.nodes| && j != i && s.nodes[j].role == Leader ==> s.nodes[j].term != s.nodes[i].term
  {
    forall j | 0 <= j < |s.nodes| && j != i && s.nodes[j].role == Leader ensures s.nodes[j].term != s.nodes[i].term {
      assert NodeOk(h, j, s.nodes[j]);
    }
  }

  /** The leader i of term t changed what only its own sessions see. */
  lemma LeaderFrame(s: Net, s': Net, h: State, h': State, i: nat)
    requires Inv(h) && Coupled(s, h) && Evolves(h, h') && OnlyNode(s, s', h, h', i)
    requires s.nodes[i].role == Leader && s'.nodes[i].role == Leader && s'.nodes[i].term == s.nodes[i].term
    requires h'.lead.Keys == h.lead.Keys && QuietBut(h, h', i, {s.nodes[i].term})
    requires forall t :: t in h.lead && t != s.nodes[i].term ==> h'.lead[t] == h.lead[t]
    requires NodeOk(h', i, s'.nodes[i]) && s'.rpcs == s.rpcs
    requires |s'.nodes[i].nextIndex| == |s.nodes[i].nextIndex|
    requires forall f :: 0 <= f < |s.nodes[i].nextIndex| && f != i ==>
               s'.nodes[i].nextIndex[f] == s.nodes[i].nextIndex[f]
    ensures NodesOk(s', h') && RpcsOk(s', h') && VotingOk(s, h')
  {
    var t := s.nodes[i].term;
    assert NodeOk(h, i, s.nodes[i]);
    OtherTerms(s, h, i);
    OthersStay(s, s', h, h', i, {t});
    forall link | link in s'.rpcs && link.leader == i && link.follower < |s.nodes|
      ensures SessionCall(s', link, s'.rpcs[link].request.prevIndex)
    {
      assert RpcOk(h, link, s.rpcs[link]);
    }
    forall link | link in s'.rpcs && link.follower == i ensures link.term != t {
      assert RpcOk(h, link, s.rpcs[link]);
    }
    RpcsStay(s, s', h, h', i, {t});
    VotingStays(s, h, h');
  }

  lemma ExecuteStep(s: Net, h: State, i: nat, v: Value) returns (h': State)
    requires Inv(h) && Coupled(s, h) && Leads(s, i)
    ensures Inv(h') && Evolves(h, h') && Coupled(Opened(s, i, v), h') && SameAccs(h, h') && h'.commits == h.commits
  {
    var s' := Opened(s, i, v);
    var n := s.nodes[i];
    assert NodeOk(h, i, n);
    h' := Append(h, n.term, Entry(n.term, v));
    SubmittedNode(h, h', i, n, v, |s.calls|);
    LeaderFrame(s, s', h, h', i);
    VotingGrows(s, s', h');
    OpenedCalls(s, s', h, h', i, v);
  }

  // ---------------------------------------------------------------- saving

  /** The history of saving the pending entries. */
  lemma SaveHistory(h: State, i: nat, n: Node<Value>) returns (h': State)
    requires Inv(h) && i < |h.peers| && NodeOk(h, i, n) && n.role == Leader
    ensures Inv(h') && Evolves(h, h') && |h'.peers| == |h.peers| && h' == SetPeer(h, i, h'.peers[i])
    ensures NodeOk(h', i, Saved(n, i)) && QuietBut(h, h', i, {n.term}) && SameAccs(h, h')
  {
    var t := n.term;
    assert NodeInv(h, i);
    var h1 := Accept(h, i, |n.log|, |h.lead[t].log|);
    assert h1.peers[i].log == n.log + n.pending;
    h' := Confirm(h1, i, t, |h.lead[t].log|);
    EvolvesTransitive(h, h1, h');
    SavedNode(h, h', i, n);
  }

  lemma SavedNode(h: State, h': State, i: nat, n: Node<Value>)
    requires i < |h.peers| == |h'.peers| && NodeOk(h, i, n) && n.role == Leader && ReignOk(h, n.term) && Evolves(h, h')
    requires h' == SetPeer(h, i, h'.peers[i])
    requires var k := |n.log| + |n.pending|; var p := h.peers[i];
             h'.peers[i] == p.(log := n.log + n.pending, acc := p.acc[n.term := Acc(k, k)])
    ensures NodeOk(h', i, Saved(n, i))
  {
    var n' := Saved(n, i);
    assert n'.log + n'.pending == n.log + n.pending;
    forall f | 0 <= f < |h.peers| && f != i
      ensures SessionOk(h', n.term, f, n'.nextIndex[f], n'.matchIndex[f])
    {
      assert SessionOk(h, n.term, f, n.nextIndex[f], n.matchIndex[f]);
      SessionStays(h, h', n.term, f, n.nextIndex[f], n.matchIndex[f]);
    }
  }

  /** The world in which leader i has node n and nothing else is different. */
  function WithNode(s: Net, i: nat, n: Node<Value>): Net
    requires i < |s.nodes|
  {
    s.(nodes := s.nodes[i := n])
  }

  lemma SaveStep(s: Net, h: State, i: nat) returns (h': State)
    requires Inv(h) && Coupled(s, h) && Leads(s, i)
    ensures Inv(h') && Evolves(h, h') && Coupled(WithNode(s, i, Saved(s.nodes[i], i)), h')
    ensures SameAccs(h, h') && h'.commits == h.commits
  {
    var n := s.nodes[i];
    var s' := WithNode(s, i, Saved(n, i));
    assert NodeOk(h, i, n);
    h' := SaveHistory(h, i, n);
    LeaderFrame(s, s', h, h', i);
    VotingGrows(s, s', h');
    BecomeCalls(s, s', h, h', i);
  }

  // ---------------------------------------------------------------- committing

  lemma {:induction false} ScanFinds(matchIndex: seq<nat>, commit: nat, start: nat, index: nat, majority: nat)
    ensures var r := ScanCommit(matchIndex, commit, start, index, majority);
            r == commit ||
            (commit < r <= index && start <= r && |Holders(matchIndex, r)| >= majority)
  {
    if index > commit && index >= start && |Holders(matchIndex, index)| < majority {
      ScanFinds(matchIndex, commit, start, index - 1, majority);
    }
  }

  /** A majority of match indexes is a majority of acknowledgements. */
  lemma HoldersChoose(h: State, i: nat, n: Node<Value>, k: nat)
    requires i < |h.peers| && LeaderOk(h, i, n) && n.role == Leader && k > 0
    requires |Holders(n.matchIndex, k)| >= Majority(|h.peers|)
    ensures ChosenBy(h, Commit(n.term, k), Holders(n.matchIndex, k))
  {
    forall j | j in Holders(n.matchIndex, k)
      ensures j < |h.peers| && n.term in h.peers[j].acc && k <= h.peers[j].acc[n.term].low
    {
      if j != i { assert SessionOk(h, n.term, j, n.nextIndex[j], n.matchIndex[j]); }
    }
  }

  /** The history of a leader that recomputes its commit index. */
  lemma AdvanceHistory(h: State, i: nat, n: Node<Value>) returns (h': State)
    requires Inv(h) && i < |h.peers| && NodeOk(h, i, n) && n.role == Leader
    ensures Inv(h') && Evolves(h, h') && |h'.peers| == |h.peers| && h'.lead == h.lead
    ensures h'.peers == h.peers[i := h'.peers[i]] && (forall t :: Quiet(h.peers[i], h'.peers[i], t))
    ensures NodeOk(h', i, UpdateCommitIndex(n, |h.peers|))
    ensures forall c :: c in h'.commits && c !in h.commits ==>
              c == Commit(n.term, UpdateCommitIndex(n, |h.peers|).commit)
  {
    var k := ScanCommit(n.matchIndex, n.commit, n.start, |n.log|, Majority(|h.peers|));
    ScanFinds(n.matchIndex, n.commit, n.start, |n.log|, Majority(|h.peers|));
    if k == n.commit {
      h' := h;
      EvolvesReflexive(h);
      assert Skip(Take(n.log, k), k) == [];
      assert UpdateCommitIndex(n, |h.peers|) == n;
    } else {
      HoldersChoose(h, i, n, k);
      var h1 := Choose(h, n.term, k, Holders(n.matchIndex, k));
      assert KnownBy(h1, Commit(n.term, k), n.term, n.log, k);
      h' := Learn(h1, i, k);
      EvolvesTransitive(h, h1, h');
      CommittedNode(h, h', i, n, k);
    }
  }

  lemma CommittedNode(h: State, h': State, i: nat, n: Node<Value>, k: nat)
    requires i < |h.peers| == |h'.peers| && NodeOk(h, i, n) && n.commit <= k <= |n.log| && Evolves(h, h')
    requires h'.lead == h.lead && h'.peers == h.peers[i := h.peers[i].(commit := k)]
    requires n.role == Leader ==> n.term in h.lead ==> ReignOk(h, n.term)
    ensures NodeOk(h', i, AdvanceCommit(n, k))
  {
    var n' := AdvanceCommit(n, k);
    AdvancedApplied(n, k);
    CandidateStays(h, h', i, n);
    LeaderStays(h, h', i, n);
    if n.role == Leader {
      forall f | 0 <= f < |h.peers| && f != i
        ensures SessionOk(h', n'.term, f, n'.nextIndex[f], n'.matchIndex[f])
      {
        assert SessionOk(h', n.term, f, n.nextIndex[f], n.matchIndex[f]);
      }
    }
  }

  lemma AdvancedApplied(n: Node<Value>, k: nat)
    requires n.commit <= k <= |n.log| && |n.applied| == n.commit
    requires forall j :: 0 <= j < n.commit ==> n.applied[j] == n.log[j].value
    ensures var n' := AdvanceCommit(n, k);
            |n'.applied| == k && forall j :: 0 <= j < k ==> n'.applied[j] == n.log[j].value
  {
    assert Skip(Take(n.log, k), n.commit) == n.log[n.commit..k];
  }

  lemma KnownShorter(h: State, t: nat, log: Log, k: nat, j: nat)
    requires Known(h, t, log, k) && j <= k
    ensures Known(h, t, log, j)
  {
    if j > 0 {
      var c :| KnownBy(h, c, t, log, k);
      assert KnownBy(h, c, t, log, j);
    }
  }

  lemma FinishedCall(s: Net, s': Net, h: State, h': State, i: nat, k: nat)
    requires Inv(h') && CallsOk(s, h) && Evolves(h, h') && OnlyNode(s, s', h, h', i) && k < |s.calls|
    requires NodeOk(h', i, s'.nodes[i]) && s.nodes[i].role == Leader && s'.nodes[i].role == Leader
    requires s'.nodes[i].term == s.nodes[i].term && s.now <= s'.now
    ensures CallMoves(s.calls[k], FinishCall(s.calls[k], k, s.nodes[i], s'.nodes[i]))
    ensures CallOk(s', h', FinishCall(s.calls[k], k, s.nodes[i], s'.nodes[i]))
  {
    var c, n, n' := s.calls[k], s.nodes[i], s'.nodes[i];
    assert CallOk(s, h, c);
    CallStays(s, s', h, h', c);
    if c.index in n.waiting && n.waiting[c.index] == k && n.commit < c.index <= n'.commit {
      assert WaitingOk(s, i);
      assert Registered(s, i, c.index, k);
      if c.term == n.term {
        assert NodeInv(h', i);
        KnownShorter(h', n'.term, n'.log, n'.commit, c.index);
        KnownLonger(h', n'.term, n'.log, h'.lead[c.term].log, c.index);
        assert ResultOk(h', c, Take(n'.applied, c.index));
      }
    }
  }

  function Committing(s: Net, i: nat): Net
    requires i < |s.nodes|
  {
    Advance(s, i, UpdateCommitIndex(s.nodes[i], |s.nodes|)).(now := s.now + 1)
  }

  lemma AdvanceStep(s: Net, h: State, i: nat) returns (h': State)
    requires Inv(h) && Coupled(s, h) && Leads(s, i)
    ensures Inv(h') && Evolves(h, h') && Coupled(Committing(s, i), h') && SameAccs(h, h') &&
            Witnessed(Committing(s, i), h, h')
  {
    var s' := Committing(s, i);
    assert NodeOk(h, i, s.nodes[i]);
    h' := AdvanceHistory(h, i, s.nodes[i]);
    QuietAccs(h, h', i);
    LeaderFrame(s, s', h, h', i);
    VotingGrows(s, s', h');
    forall k | 0 <= k < |s.calls|
      ensures CallMoves(s.calls[k], s'.calls[k]) && CallOk(s', h', s'.calls[k])
    {
      FinishedCall(s, s', h, h', i, k);
    }
    CallsStay(s, s', h, h');
    forall c | c in h'.commits && c !in h.commits ensures CommitsAt(s', i, c) {}
  }

  lemma WriteStep(s: Net, h: State, i: nat) returns (h': State)
    requires Inv(h) && Coupled(s, h) && Leads(s, i)
    ensures Inv(h') && Evolves(h, h') && Coupled(Written(s, i), h') && SameAccs(h, h') &&
            Witnessed(Written(s, i), h, h')
  {
    var s1 := WithNode(s, i, Saved(s.nodes[i], i));
    var h1 := SaveStep(s, h, i);
    h' := AdvanceStep(s1, h1, i);
    EvolvesTransitive(h, h1, h');
    WrittenTwice(s, i);
  }

  lemma WrittenTwice(s: Net, i: nat)
    requires Leads(s, i)
    ensures Written(s, i) == Committing(WithNode(s, i, Saved(s.nodes[i], i)), i)
  {
    var s1, n' := WithNode(s, i, Saved(s.nodes[i], i)), Flush(s.nodes[i], i, |s.nodes|);
    assert FinishCalls(s.calls, s.nodes[i], n') == FinishCalls(s1.calls, s1.nodes[i], n');
    assert Written(s, i).nodes == Committing(s1, i).nodes;
  }

  // ---------------------------------------------------------------- replies

  lemma ConfirmedSession(h: State, h': State, i: nat, n: Node<Value>, f: nat, r: AppendRequest<Value>)
    requires i < |h.peers| == |h'.peers| && NodeOk(h, i, n) && n.role == Leader && f < |h.peers| && f != i
    requires ReignOk(h, n.term) && Evolves(h, h') && h' == SetPeer(h, f, h'.peers[f])
    requires r.prevIndex + |r.entries| <= |h.lead[n.term].log| && n.nextIndex[f] == r.prevIndex + 1
    requires h'.peers[f] == h.peers[f].(acc := h'.peers[f].acc)
    requires n.term in h'.peers[f].acc && h'.peers[f].acc[n.term].low == r.prevIndex + |r.entries|
    ensures NodeOk(h', i, Confirmed(n, f, r))
  {
    var n' := Confirmed(n, f, r);
    forall g | 0 <= g < |h.peers| && g != i
      ensures SessionOk(h', n.term, g, n'.nextIndex[g], n'.matchIndex[g])
    {
      assert SessionOk(h, n.term, g, n.nextIndex[g], n.matchIndex[g]);
      if g != f { SessionStays(h, h', n.term, g, n.nextIndex[g], n.matchIndex[g]); }
    }
  }

  /** The world after a success reply has been noted, before the commit index moves. */
  function Noted(s: Net, link: Link): Net
    requires CanReturn(s, link)
  {
    WithNode(s, link.leader, Confirmed(s.nodes[link.leader], link.follower, s.rpcs[link].request))
      .(rpcs := s.rpcs - {link})
  }

  lemma NotedNodes(s: Net, h: State, h': State, link: Link)
    requires Inv(h) && Coupled(s, h) && CanReturn(s, link) && s.rpcs[link].reply.success && Evolves(h, h')
    requires RpcOk(h, link, s.rpcs[link])
    requires var last := s.rpcs[link].request.prevIndex + |s.rpcs[link].request.entries|;
             var p := h.peers[link.follower];
             h' == SetPeer(h, link.follower, p.(acc := p.acc[link.term := Acc(last, p.acc[link.term].high)]))
    ensures NodesOk(Noted(s, link), h')
  {
    var s' := Noted(s, link);
    var i, f := link.leader, link.follower;
    forall j | 0 <= j < |s'.nodes| ensures NodeOk(h', j, s'.nodes[j]) {
      var n := s.nodes[j];
      assert NodeOk(h, j, n);
      if n.role == Leader { assert ReignOk(h, n.term); }
      if j == i {
        ConfirmedSession(h, h', i, n, f, s.rpcs[link].request);
      } else {
        CandidateStays(h, h', j, n);
        LeaderElsewhere(h, h', j, n, f, link.term);
      }
    }
  }

  /** Only the acknowledgement of node f in term t moved, and n does not lead t. */
  lemma LeaderElsewhere(h: State, h': State, j: nat, n: Node<Value>, f: nat, t: nat)
    requires j < |h.peers| == |h'.peers| && LeaderOk(h, j, n) && f < |h.peers| && Evolves(h, h')
    requires n.role == Leader ==> n.term != t && ReignOk(h, n.term)
    requires h'.lead == h.lead && h'.peers == h.peers[f := h.peers[f].(acc := h'.peers[f].acc)]
    requires forall t1 :: t1 != t ==> Quiet(h.peers[f], h'.peers[f], t1)
    ensures LeaderOk(h', j, n)
  {
    if n.role == Leader {
      assert Quiet(h.peers[f], h'.peers[f], n.term);
      forall g | 0 <= g < |h.peers| && g != j
        ensures SessionOk(h', n.term, g, n.nextIndex[g], n.matchIndex[g])
      {
        assert SessionOk(h, n.term, g, n.nextIndex[g], n.matchIndex[g]);
        SessionStays(h, h', n.term, g, n.nextIndex[g], n.matchIndex[g]);
      }
    }
  }

  lemma NotedRpcs(s: Net, h: State, h': State, link: Link)
    requires Inv(h) && NodesOk(s, h) && RpcsOk(s, h) && CanReturn(s, link)
    requires s.rpcs[link].reply.success && Evolves(h, h')
    requires RpcOk(h, link, s.rpcs[link])
    requires var last := s.rpcs[link].request.prevIndex + |s.rpcs[link].request.entries|;
             var p := h.peers[link.follower];
             h' == SetPeer(h, link.follower, p.(acc := p.acc[link.term := Acc(last, p.acc[link.term].high)]))
    ensures RpcsOk(Noted(s, link), h')
  {
    var s' := Noted(s, link);
    forall l | l in s'.rpcs ensures RpcOk(h', l, s'.rpcs[l]) && SessionCall(s', l, s'.rpcs[l].request.prevIndex) {
      assert RpcOk(h, l, s.rpcs[l]);
      assert ReignOk(h, l.term);
      RpcStays(h, h', l, s.rpcs[l]);
    }
  }

  lemma NotedStep(s: Net, h: State, link: Link) returns (h': State)
    requires Inv(h) && Coupled(s, h) && CanReturn(s, link) && s.rpcs[link].reply.success
    ensures Inv(h') && Evolves(h, h') && Coupled(Noted(s, link), h') && SameAccs(h, h') && h'.commits == h.commits
  {
    var s' := Noted(s, link);
    var i, f, t := link.leader, link.follower, link.term;
    var r := s.rpcs[link].request;
    assert RpcOk(h, link, s.rpcs[link]) && NodeOk(h, i, s.nodes[i]);
    h' := Confirm(h, f, t, r.prevIndex + |r.entries|);
    NotedNodes(s, h, h', link);
    NotedRpcs(s, h, h', link);
    VotingStays(s, h, h');
    VotingGrows(s, s', h');
    BecomeCalls(s, s', h, h', i);
  }

  lemma ReturnedTwice(s: Net, link: Link)
    requires CanReturn(s, link) && s.rpcs[link].reply.success && s.rpcs[link].reply.term <= link.term
    ensures Returned(s, link) == Committing(Noted(s, link), link.leader)
  {
    var i, s1 := link.leader, Noted(s, link);
    var n' := UpdateCommitIndex(s1.nodes[i], |s.nodes|);
    assert FinishCalls(s.calls, s.nodes[i], n') == FinishCalls(s1.calls, s1.nodes[i], n');
    assert Returned(s, link).nodes == Committing(s1, i).nodes;
  }

  /** The leader tries one index lower. */
  function Backed(n: Node<Value>, f: nat): Node<Value>
    requires f < |n.nextIndex|
  {
    n.(nextIndex := n.nextIndex[f := if n.nextIndex[f] > 0 then n.nextIndex[f] - 1 else 0])
  }

  lemma BackedNode(h: State, i: nat, n: Node<Value>, f: nat, rpc: Rpc<Value>)
    requires i < |h.peers| && NodeOk(h, i, n) && n.role == Leader && f < |h.peers| && f != i
    requires rpc.Answered? && !rpc.reply.success && rpc.reply.term <= n.term
    requires RpcOk(h, Link(i, n.term, f), rpc) && n.nextIndex[f] == rpc.request.prevIndex + 1
    ensures NodeOk(h, i, Backed(n, f)) && n.nextIndex[f] >= 2
  {
    var n' := Backed(n, f);
    forall g | 0 <= g < |h.peers| && g != i
      ensures SessionOk(h, n.term, g, n'.nextIndex[g], n'.matchIndex[g])
    {
      assert SessionOk(h, n.term, g, n.nextIndex[g], n.matchIndex[g]);
    }
  }

  lemma RejectedMove(s: Net, link: Link)
    requires CanReturn(s, link) && !s.rpcs[link].reply.success && s.rpcs[link].reply.term <= link.term
    ensures Returned(s, link) ==
            WithNode(s, link.leader, Backed(s.nodes[link.leader], link.follower))
              .(rpcs := s.rpcs - {link}, now := s.now + 1)
  {
    var n := s.nodes[link.leader];
    assert FinishCalls(s.calls, n, Backed(n, link.follower)) == s.calls;
  }

  lemma RejectedStep(s: Net, h: State, link: Link) returns (h': State)
    requires Inv(h) && Coupled(s, h) && CanReturn(s, link)
    requires !s.rpcs[link].reply.success && s.rpcs[link].reply.term <= link.term
    ensures Inv(h') && Evolves(h, h') && Coupled(Returned(s, link), h') && SameAccs(h, h') &&
            Witnessed(Returned(s, link), h, h')
  {
    var s' := Returned(s, link);
    var i := link.leader;
    RejectedMove(s, link);
    h' := h;
    EvolvesReflexive(h);
    assert RpcOk(h, link, s.rpcs[link]) && NodeOk(h, i, s.nodes[i]);
    BackedNode(h, i, s.nodes[i], link.follower, s.rpcs[link]);
    forall j | 0 <= j < |s'.nodes| ensures NodeOk(h, j, s'.nodes[j]) { assert NodeOk(h, j, s.nodes[j]); }
    forall l | l in s'.rpcs ensures RpcOk(h, l, s'.rpcs[l]) && SessionCall(s', l, s'.rpcs[l].request.prevIndex) {
      assert RpcOk(h, l, s.rpcs[l]);
    }
    VotingGrows(s, s', h');
    BecomeCalls(s, s', h, h', i);
  }

  lemma DeposedMove(s: Net, link: Link)
    requires CanReturn(s, link) && s.rpcs[link].reply.term > link.term
    ensures QuietMove(s, Returned(s, link).(rpcs := s.rpcs), link.leader)
    ensures Returned(s, link).nodes[link.leader] == JoinTerm(s.nodes[link.leader], s.rpcs[link].reply.term)
  {}

  /** A leader hears of a higher term. */
  lemma DeposedStep(s: Net, h: State, link: Link) returns (h': State)
    requires Inv(h) && Coupled(s, h) && CanReturn(s, link) && s.rpcs[link].reply.term > link.term
    ensures Inv(h') && Evolves(h, h') && Coupled(Returned(s, link), h') && SameAccs(h, h') &&
            Witnessed(Returned(s, link), h, h')
  {
    var i := link.leader;
    var s1 := Returned(s, link).(rpcs := s.rpcs);
    DeposedMove(s, link);
    assert NodeOk(h, i, s.nodes[i]);
    h' := Join(h, i, s.nodes[i], s.rpcs[link].reply.term);
    QuietStep(s, s1, h, h', i);
    VotingGrows(s, s1, h');
    DroppedRpc(s1, Returned(s, link), h');
  }

  lemma DroppedRpc(s: Net, s': Net, h: State)
    requires Coupled(s, h) && s' == s.(rpcs := s'.rpcs)
    requires forall l :: l in s'.rpcs ==> l in s.rpcs && s'.rpcs[l] == s.rpcs[l]
    ensures Coupled(s', h)
  {
    forall j | 0 <= j < |s'.nodes| ensures NodeOk(h, j, s'.nodes[j]) { assert NodeOk(h, j, s.nodes[j]); }
    forall l | l in s'.rpcs ensures RpcOk(h, l, s'.rpcs[l]) && SessionCall(s', l, s'.rpcs[l].request.prevIndex) {
      assert RpcOk(h, l, s.rpcs[l]);
    }
    VotingGrows(s, s', h);
    SameCalls(s, s', h);
  }

  lemma ReturnStep(s: Net, h: State, link: Link) returns (h': State)
    requires Inv(h) && Coupled(s, h) && CanReturn(s, link)
    ensures Inv(h') && Evolves(h, h') && Coupled(Returned(s, link), h') && SameAccs(h, h') &&
            Witnessed(Returned(s, link), h, h')
  {
    if s.rpcs[link].reply.term > link.term {
      h' := DeposedStep(s, h, link);
    } else if !s.rpcs[link].reply.success {
      h' := RejectedStep(s, h, link);
    } else {
      var h1 := NotedStep(s, h, link);
      h' := AdvanceStep(Noted(s, link), h1, link.leader);
      EvolvesTransitive(h, h1, h');
      ReturnedTwice(s, link);
    }
  }

  // ---------------------------------------------------------------- delivery

  /** What the follower stores is a prefix of the leader's log. */
  lemma StoredIsPrefix(log: Log, lead: Log, commit: nat, r: AppendRequest<Value>)
    requires Agree(log, lead, r.prevIndex) && Agree(log, lead, commit)
    requires r.prevIndex + |r.entries| <= |lead|
    requires forall k :: 0 <= k < |r.entries| ==> r.entries[k] == lead[r.prevIndex + k]
    ensures Stored(log, commit, r) == Take(lead, Max(r.prevIndex + |r.entries|, commit))
  {}

  /** The follower as the leader of term t finds it: in the term, not leading it. */
  lemma JoinedFollower(h: State, link: Link, rpc: Rpc<Value>, n: Node<Value>) returns (h': State)
    requires Inv(h) && RpcOk(h, link, rpc) && NodeOk(h, link.follower, n) && n.term <= link.term
    ensures Inv(h') && Evolves(h, h') && h' == SetPeer(h, link.follower, h.peers[link.follower].(term := link.term))
    ensures NodeOk(h', link.follower, JoinTerm(n.(role := Follower), link.term))
    ensures n.role == Leader ==> n.term < link.term
    ensures forall t :: Quiet(h.peers[link.follower], h'.peers[link.follower], t)
    ensures RpcOk(h', link, rpc)
  {
    assert NodeOk(h, link.follower, n.(role := Follower));
    h' := Join(h, link.follower, n.(role := Follower), link.term);
    assert ReignOk(h, link.term);
    RpcStays(h, h', link, rpc);
  }

  lemma AcceptReady(h: State, link: Link, r: AppendRequest<Value>, n: Node<Value>)
    requires Inv(h) && RpcOk(h, link, Sent(r)) && SameNode(n, h.peers[link.follower])
    requires n.term == link.term && LogMatches(n.log, r)
    ensures Acceptable(h, link.follower, r.prevIndex, r.prevIndex + |r.entries|)
    ensures var lead := h.lead[link.term].log;
            Agree(n.log, lead, n.commit) &&
            Stored(n.log, n.commit, r) == Take(lead, Max(r.prevIndex + |r.entries|, n.commit))
  {
    var f, t := link.follower, link.term;
    assert NodeInv(h, f) && ReignOk(h, t);
    if r.prevIndex > 0 { MatchingLogs(h, n.log, h.lead[t].log, r.prevIndex); }
    KnownInLead(h, t, n.log, n.commit);
    StoredIsPrefix(n.log, h.lead[t].log, n.commit, r);
  }

  lemma StoreHistory(h: State, link: Link, r: AppendRequest<Value>, n: Node<Value>) returns (h': State)
    requires Inv(h) && RpcOk(h, link, Sent(r)) && NodeOk(h, link.follower, n)
    requires n.term == link.term && n.role == Follower && LogMatches(n.log, r)
    ensures Inv(h') && Evolves(h, h') && |h'.peers| == |h.peers|
    ensures h' == SetPeer(h, link.follower, h'.peers[link.follower])
    ensures var log := Stored(n.log, n.commit, r);
            NodeOk(h', link.follower, n.(log := log)) && n.commit <= |log| &&
            Agree(log, h.lead[link.term].log, |log|)
    ensures var p, p' := h.peers[link.follower], h'.peers[link.follower];
            p' == p.(log := p'.log, acc := p.acc[link.term := Acc(r.prevIndex, r.prevIndex + |r.entries|)])
  {
    AcceptReady(h, link, r, n);
    h' := Accept(h, link.follower, r.prevIndex, r.prevIndex + |r.entries|);
    StoredPeer(h, link.follower, r, n);
  }

  /** What the accepted request makes of the follower's side of the history. */
  lemma StoredPeer(h: State, f: nat, r: AppendRequest<Value>, n: Node<Value>)
    requires f < |h.peers| && SameNode(n, h.peers[f]) && n.role == Follower && n.term in h.lead
    requires n.term in h.peers[f].acc ==> h.peers[f].acc[n.term].low == r.prevIndex
    requires var lead, last := h.lead[n.term].log, Max(r.prevIndex + |r.entries|, n.commit);
             last <= |lead| && Agree(n.log, lead, n.commit) && Stored(n.log, n.commit, r) == Take(lead, last)
    ensures var h' := Accepted(h, f, r.prevIndex, r.prevIndex + |r.entries|);
            var p, p', log := h.peers[f], h'.peers[f], Stored(n.log, n.commit, r);
            && |h'.peers| == |h.peers| && h' == SetPeer(h, f, p')
            && p' == p.(log := p'.log, acc := p.acc[n.term := Acc(r.prevIndex, r.prevIndex + |r.entries|)])
            && NodeOk(h', f, n.(log := log)) && n.commit <= |log| && Agree(log, h.lead[n.term].log, |log|)
  {
    var h' := Accepted(h, f, r.prevIndex, r.prevIndex + |r.entries|);
    StoredNode(h, h', f, n, Stored(n.log, n.commit, r));
  }

  lemma LearnHistory(h: State, f: nat, n: Node<Value>, leaderCommit: nat) returns (h': State)
    requires Inv(h) && f < |h.peers| && NodeOk(h, f, n) && n.role == Follower && n.term in h.lead
    requires Agree(n.log, h.lead[n.term].log, |n.log|) && Known(h, n.term, h.lead[n.term].log, leaderCommit)
    ensures Inv(h') && Evolves(h, h') && |h'.peers| == |h.peers|
    ensures h' == SetPeer(h, f, h.peers[f].(commit := h'.peers[f].commit))
    ensures NodeOk(h', f, AdvanceCommit(n, Max(n.commit, Min(leaderCommit, |n.log|))))
  {
    var k := Max(n.commit, Min(leaderCommit, |n.log|));
    LearnedCommit(h, f, n.term, n.commit, leaderCommit);
    h' := Learn(h, f, k);
    CommittedNode(h, h', f, n, k);
  }

  /** The history of an accepted request, once the follower is in the leader's term. */
  lemma AcceptHistory(h: State, link: Link, r: AppendRequest<Value>, n: Node<Value>) returns (h': State)
    requires Inv(h) && RpcOk(h, link, Sent(r)) && NodeOk(h, link.follower, n)
    requires n.term == link.term && n.role == Follower && LogMatches(n.log, r)
    ensures Inv(h') && Evolves(h, h') && |h'.peers| == |h.peers|
    ensures h' == SetPeer(h, link.follower, h'.peers[link.follower])
    ensures var log := Stored(n.log, n.commit, r);
            NodeOk(h', link.follower, AdvanceCommit(n.(log := log), Max(n.commit, Min(r.leaderCommit, |log|))))
    ensures var p, p' := h.peers[link.follower], h'.peers[link.follower];
            p'.term == p.term && p'.acc == p.acc[link.term := Acc(r.prevIndex, r.prevIndex + |r.entries|)]
  {
    var f := link.follower;
    var h1 := StoreHistory(h, link, r, n);
    KnownStays(h, h1, link.term, link.term, h.lead[link.term].log, r.leaderCommit);
    h' := LearnHistory(h1, f, n.(log := Stored(n.log, n.commit, r)), r.leaderCommit);
    EvolvesTransitive(h, h1, h');
    assert h'.peers == h.peers[f := h'.peers[f]];
  }

  lemma StoredNode(h: State, h': State, f: nat, n: Node<Value>, log: Log)
    requires f < |h.peers| == |h'.peers| && SameNode(n, h.peers[f]) && n.role == Follower
    requires h'.peers[f] == h.peers[f].(log := log, acc := h'.peers[f].acc)
    requires n.commit <= |log| && Agree(n.log, log, n.commit)
    ensures NodeOk(h', f, n.(log := log))
  {}

  lemma LearnedCommit(h: State, f: nat, t: nat, commit: nat, leaderCommit: nat)
    requires Inv(h) && f < |h.peers| && h.peers[f].term == t && t in h.lead && h.peers[f].commit == commit
    requires Agree(h.peers[f].log, h.lead[t].log, |h.peers[f].log|)
    requires Known(h, t, h.lead[t].log, leaderCommit)
    ensures Known(h, t, h.peers[f].log, Max(commit, Min(leaderCommit, |h.peers[f].log|)))
  {
    assert NodeInv(h, f);
    var k := Min(leaderCommit, |h.peers[f].log|);
    KnownShorter(h, t, h.lead[t].log, leaderCommit, k);
    KnownLonger(h, t, h.lead[t].log, h.peers[f].log, k);
  }

  /** What a delivery does to the session: nothing, or the follower accepts at its start. */
  ghost predicate SessionMoves(p: Peer, p': Peer, t: nat, prev: nat) {
    Quiet(p, p', t) || (t in p'.acc && p'.acc[t].low == prev)
  }

  ghost predicate FirstAccept(p: Peer, p': Peer, t: nat, success: bool) {
    forall t1 :: t1 in p'.acc && t1 !in p.acc ==> t1 == t && success
  }

  /** The history of delivering an AppendEntries call that is not from an old term. */
  lemma HandleHistory(h: State, link: Link, r: AppendRequest<Value>, n: Node<Value>) returns (h': State)
    requires Inv(h) && RpcOk(h, link, Sent(r)) && NodeOk(h, link.follower, n)
    requires n.term == link.term && n.role == Follower
    ensures Inv(h') && Evolves(h, h') && |h'.peers| == |h.peers|
    ensures h' == SetPeer(h, link.follower, h'.peers[link.follower])
    ensures NodeOk(h', link.follower, HandleAppend(n, r).0)
    ensures forall term :: RpcOk(h', link, Answered(r, AppendReply(term, HandleAppend(n, r).1.success)))
    ensures QuietBut(h, h', link.follower, {link.term})
    ensures SessionMoves(h.peers[link.follower], h'.peers[link.follower], link.term, r.prevIndex)
    ensures FirstAccept(h.peers[link.follower], h'.peers[link.follower], link.term, HandleAppend(n, r).1.success)
  {
    if LogMatches(n.log, r) {
      h' := AcceptHistory(h, link, r, n);
      assert ReignOk(h, link.term);
      forall term ensures RpcOk(h', link, Answered(r, AppendReply(term, true))) {
        AnsweredOk(h, h', link, r, AppendReply(term, true));
      }
    } else {
      h' := h;
      EvolvesReflexive(h);
      assert h.peers[link.follower := h.peers[link.follower]] == h.peers;
      forall term ensures RpcOk(h', link, Answered(r, AppendReply(term, false))) {
        RefusedOk(h', link, r, n, AppendReply(term, false));
      }
    }
  }

  /** Joining the leader's term first makes no difference to what the handler does. */
  lemma HandleJoined(n: Node<Value>, r: AppendRequest<Value>)
    requires n.term <= r.term
    ensures var joined := JoinTerm(n.(role := Follower), r.term);
            HandleAppend(n, r).0 == HandleAppend(joined, r).0 &&
            HandleAppend(n, r).1 == AppendReply(n.term, HandleAppend(joined, r).1.success)
  {}

  /** The history of delivering an AppendEntries call. */
  lemma DeliverHistory(h: State, link: Link, r: AppendRequest<Value>, n: Node<Value>) returns (h': State)
    requires Inv(h) && RpcOk(h, link, Sent(r)) && NodeOk(h, link.follower, n)
    ensures Inv(h') && Evolves(h, h') && |h'.peers| == |h.peers|
    ensures h' == SetPeer(h, link.follower, h'.peers[link.follower])
    ensures NodeOk(h', link.follower, HandleAppend(n, r).0)
    ensures RpcOk(h', link, Answered(r, HandleAppend(n, r).1))
    ensures QuietBut(h, h', link.follower, {link.term})
    ensures SessionMoves(h.peers[link.follower], h'.peers[link.follower], link.term, r.prevIndex)
    ensures FirstAccept(h.peers[link.follower], h'.peers[link.follower], link.term, HandleAppend(n, r).1.success)
    ensures n.role == Leader ==> n.term != link.term
  {
    var f := link.follower;
    if r.term < n.term {
      h' := h;
      EvolvesReflexive(h);
      assert h.peers[f := h.peers[f]] == h.peers;
    } else {
      var h1 := JoinedFollower(h, link, Sent(r), n);
      HandleJoined(n, r);
      h' := HandleHistory(h1, link, r, JoinTerm(n.(role := Follower), link.term));
      EvolvesTransitive(h, h1, h');
      assert h'.peers == h.peers[f := h'.peers[f]];
    }
  }

  lemma AnsweredOk(h: State, h': State, link: Link, r: AppendRequest<Value>, reply: AppendReply)
    requires Evolves(h, h') && RpcOk(h, link, Sent(r)) && reply.success && ReignOk(h, link.term)
    requires var p, last := h'.peers[link.follower], r.prevIndex + |r.entries|;
             link.term in p.acc && p.acc[link.term] == Acc(r.prevIndex, last)
    ensures RpcOk(h', link, Answered(r, reply))
  {
    assert ReignEvolves(h.lead[link.term], h'.lead[link.term]);
    RequestStays(h, h', link, r);
  }

  lemma RefusedOk(h: State, link: Link, r: AppendRequest<Value>, n: Node<Value>, reply: AppendReply)
    requires Inv(h) && RpcOk(h, link, Sent(r)) && SameNode(n, h.peers[link.follower]) && n.term == link.term
    requires !LogMatches(n.log, r) && !reply.success
    ensures RpcOk(h, link, Answered(r, reply))
  {
    var f, t := link.follower, link.term;
    assert NodeInv(h, f);
    assert !Matches(n.log, h.lead[t].log, r.prevIndex);
  }

  lemma DeliveredMove(s: Net, link: Link)
    requires CanDeliver(s, link)
    ensures var f, s', r := link.follower, Delivered(s, link), s.rpcs[link].request;
            s'.nodes == s.nodes[f := HandleAppend(s.nodes[f], r).0] &&
            s'.rpcs == s.rpcs[link := Answered(r, HandleAppend(s.nodes[f], r).1)] &&
            s'.calls == Become(s, f, s'.nodes[f]).calls && s'.nodes[f].waiting == s.nodes[f].waiting &&
            s.nodes[f].term <= s'.nodes[f].term && s'.now == s.now + 1 &&
            s'.ballots == s.ballots && s'.answers == s.answers
    ensures var f, n, n' := link.follower, s.nodes[link.follower], Delivered(s, link).nodes[link.follower];
            n' == n || (n'.role == Follower && n.term <= s.rpcs[link].request.term == n'.term)
  {}

  /** The leader of the link's term, if it lives, sees its session with the follower. */
  lemma DeliveredLeader(s: Net, h: State, h': State, link: Link, j: nat)
    requires NodesOk(s, h) && j < |s.nodes| && j != link.follower && s.nodes[j].role == Leader
    requires link.term in h.lead && ReignOk(h, link.term) && h.lead[link.term].owner == link.leader
    requires s.nodes[j].term == link.term && link.follower < |s.nodes| && link in s.rpcs
    requires SessionCall(s, link, s.rpcs[link].request.prevIndex) && Evolves(h, h')
    requires |h'.peers| == |h.peers| && h' == SetPeer(h, link.follower, h'.peers[link.follower])
    requires SessionMoves(h.peers[link.follower], h'.peers[link.follower], link.term, s.rpcs[link].request.prevIndex)
    ensures LeaderOk(h', j, s.nodes[j])
  {
    var n := s.nodes[j];
    assert NodeOk(h, j, n);
    forall f | 0 <= f < |h.peers| && f != j
      ensures SessionOk(h', n.term, f, n.nextIndex[f], n.matchIndex[f])
    {
      assert SessionOk(h, n.term, f, n.nextIndex[f], n.matchIndex[f]);
      if Quiet(h.peers[f], h'.peers[f], n.term) {
        SessionStays(h, h', n.term, f, n.nextIndex[f], n.matchIndex[f]);
      }
    }
  }

  lemma DeliveredNodes(s: Net, s': Net, h: State, h': State, link: Link)
    requires Inv(h) && Coupled(s, h) && Evolves(h, h') && OnlyNode(s, s', h, h', link.follower)
    requires link in s.rpcs && RpcOk(h, link, s.rpcs[link]) && h'.lead == h.lead
    requires h' == SetPeer(h, link.follower, h'.peers[link.follower])
    requires QuietBut(h, h', link.follower, {link.term})
    requires SessionMoves(h.peers[link.follower], h'.peers[link.follower], link.term, s.rpcs[link].request.prevIndex)
    requires NodeOk(h', link.follower, s'.nodes[link.follower])
    ensures NodesOk(s', h')
  {
    var f, t := link.follower, link.term;
    assert ReignOk(h, t);
    forall j | 0 <= j < |s.nodes| && j != f && s.nodes[j].role == Leader && s.nodes[j].term in {t}
      ensures LeaderOk(h', j, s.nodes[j])
    {
      DeliveredLeader(s, h, h', link, j);
    }
    OthersStay(s, s', h, h', f, {t});
  }

  lemma DeliveredJoins(s: Net, h: State, h': State, link: Link)
    requires CanDeliver(s, link) && |h.peers| == |s.nodes| == |h'.peers|
    requires h'.peers == h.peers[link.follower := h'.peers[link.follower]]
    requires FirstAccept(h.peers[link.follower], h'.peers[link.follower], link.term,
                         HandleAppend(s.nodes[link.follower], s.rpcs[link].request).1.success)
    ensures Joins(s, Delivered(s, link), h, h')
  {
    DeliveredMove(s, link);
    if Delivered(s, link).rpcs[link].reply.success {
      assert Accepts(s, Delivered(s, link), link);
    }
  }

  lemma DeliverStep(s: Net, h: State, link: Link) returns (h': State)
    requires Inv(h) && Coupled(s, h) && CanDeliver(s, link)
    ensures Inv(h') && Evolves(h, h') && Coupled(Delivered(s, link), h') && Joins(s, Delivered(s, link), h, h') &&
            h'.commits == h.commits
  {
    var s' := Delivered(s, link);
    var f := link.follower;
    assert RpcOk(h, link, s.rpcs[link]) && NodeOk(h, f, s.nodes[f]);
    h' := DeliverHistory(h, link, s.rpcs[link].request, s.nodes[f]);
    DeliveredMove(s, link);
    DeliveredJoins(s, h, h', link);
    DeliveredNodes(s, s', h, h', link);
    DeliveredRpcs(s, s', h, h', link);
    VotingStays(s, h, h');
    VotingGrows(s, s', h');
    BecomeCalls(s, s', h, h', f);
  }

  lemma DeliveredRpcs(s: Net, s': Net, h: State, h': State, link: Link)
    requires Inv(h) && RpcsOk(s, h) && CanDeliver(s, link) && Evolves(h, h')
    requires OnlyNode(s, s', h, h', link.follower) && QuietBut(h, h', link.follower, {link.term})
    requires link in s'.rpcs && s'.rpcs == s.rpcs[link := s'.rpcs[link]]
    requires s'.rpcs[link].request == s.rpcs[link].request
    requires RpcOk(h', link, s'.rpcs[link])
    requires var n, n' := s.nodes[link.follower], s'.nodes[link.follower]; n' == n || n'.role == Follower
    ensures RpcsOk(s', h')
  {
    var s1 := s'.(rpcs := s'.rpcs - {link});
    assert RpcOk(h, link, s.rpcs[link]);
    forall l | l in s1.rpcs && l.leader == link.follower && l.follower < |s.nodes|
      ensures SessionCall(s1, l, s1.rpcs[l].request.prevIndex)
    {
      assert RpcOk(h, l, s.rpcs[l]);
    }
    forall l | l in s1.rpcs && l.follower == link.follower ensures l.term != link.term {
      assert RpcOk(h, l, s.rpcs[l]);
    }
    RpcsStay(s, s1, h, h', link.follower, {link.term});
    forall l | l in s'.rpcs ensures RpcOk(h', l, s'.rpcs[l]) && SessionCall(s', l, s'.rpcs[l].request.prevIndex) {
      if l != link { assert RpcOk(h', l, s1.rpcs[l]); }
    }
  }

  // ---------------------------------------------------------------- replies to clients

  lemma WokenCall(s: Net, h: State, id: nat)
    requires CallsOk(s, h) && CanWake(s, id)
    ensures var c, n := s.calls[id], s.nodes[s.calls[id].node];
            n.term == c.term ==>
              n.role == Leader && c.phase.result.Some? && ResultOk(h, c, c.phase.result.value)
  {
    assert CallOk(s, h, s.calls[id]);
  }

  lemma WakeCalls(s: Net, s': Net, h: State, id: nat)
    requires Inv(h) && CallsOk(s, h) && CanWake(s, id) && s' == Replied(s, id)
    ensures CallsOk(s', h)
  {
    EvolvesReflexive(h);
    WokenCall(s, h, id);
    var c := s.calls[id];
    forall k | 0 <= k < |s'.calls| ensures CallOk(s', h, s'.calls[k]) {
      assert CallOk(s, h, s.calls[k]);
      if k != id { CallStays(s, s', h, h, s.calls[k]); }
    }
    forall j | 0 <= j < |s'.nodes| ensures WaitingOk(s', j) { WakeWaiting(s, s', h, id, j); }
    forall k, m | 0 <= k < |s.calls| && 0 <= m < |s.calls| ensures RealTime(h, s'.calls[k], s'.calls[m]) {
      assert RealTime(h, s.calls[k], s.calls[m]);
      assert CallOk(s, h, s.calls[m]);
    }
  }

  lemma WakeWaiting(s: Net, s': Net, h: State, id: nat, j: nat)
    requires CallsOk(s, h) && CanWake(s, id) && s' == Replied(s, id) && j < |s'.nodes|
    ensures WaitingOk(s', j)
  {
    assert WaitingOk(s, j);
    forall index | index in s'.nodes[j].waiting ensures Registered(s', j, index, s'.nodes[j].waiting[index]) {
      assert Registered(s, j, index, s.nodes[j].waiting[index]);
    }
  }

  lemma WakeStep(s: Net, h: State, id: nat) returns (h': State)
    requires Inv(h) && Coupled(s, h) && CanWake(s, id)
    ensures Inv(h') && Evolves(h, h') && Coupled(Replied(s, id), h') && SameAccs(h, h') && h'.commits == h.commits
  {
    var s' := Replied(s, id);
    h' := h;
    EvolvesReflexive(h);
    forall j | 0 <= j < |s'.nodes| ensures NodeOk(h, j, s'.nodes[j]) { assert NodeOk(h, j, s.nodes[j]); }
    forall l | l in s'.rpcs ensures RpcOk(h, l, s'.rpcs[l]) && SessionCall(s', l, s'.rpcs[l].request.prevIndex) {
      assert RpcOk(h, l, s.rpcs[l]);
    }
    VotingGrows(s, s', h);
    WakeCalls(s, s', h, id);
  }

  // ---------------------------------------------------------------- all steps

  lemma NextStep(s: Net, h: State, a: Action<Value>) returns (h': State)
    requires Inv(h) && Coupled(s, h) && Enabled(s, a)
    ensures Inv(h') && Evolves(h, h') && Coupled(Next(s, a), h') && Joins(s, Next(s, a), h, h') &&
            Witnessed(Next(s, a), h, h')
  {
    match a
    case Timeout(i) => h' := TimeoutStep(s, h, i); SameAccsJoin(s, TimedOut(s, i), h, h');
    case AskVote(v, ballot) => h' := AskVoteStep(s, h, v, ballot); SameAccsJoin(s, Asked(s, v, ballot), h, h');
    case CountVote(answer) => h' := CountVoteStep(s, h, answer);
    case Execute(i, value) => h' := ExecuteStep(s, h, i, value); SameAccsJoin(s, Opened(s, i, value), h, h');
    case Write(i) => h' := WriteStep(s, h, i); SameAccsJoin(s, Written(s, i), h, h');
    case Send(i, f, last) => h' := SendStep(s, h, i, f, last); SameAccsJoin(s, Requested(s, i, f, last), h, h');
    case Deliver(link) => h' := DeliverStep(s, h, link);
    case Return(link) => h' := ReturnStep(s, h, link); SameAccsJoin(s, Returned(s, link), h, h');
    case Lose(link) => h' := LoseStep(s, h, link); SameAccsJoin(s, Lost(s, link), h, h');
    case Crash(i) => h' := CrashStep(s, h, i); SameAccsJoin(s, Crashed(s, i), h, h');
    case Wake(id) => h' := WakeStep(s, h, id); SameAccsJoin(s, Replied(s, id), h, h');
  }
}
