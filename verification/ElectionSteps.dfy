/** Every step of the cluster is matched by steps of its history: elections, crashes and losses. */
module ElectionSteps {
  import opened Entries
  import opened Replica
  import opened Cluster
  import opened Consensus
  import opened ConsensusSteps
  import opened Coupling

  // ---------------------------------------------------------------- one node moves

  /** Only node i moved, in the cluster and in its history. */
  ghost predicate OnlyNode(s: Net, s': Net, h: State, h': State, i: nat) {
    && i < |s.nodes| == |s'.nodes| == |h.peers| == |h'.peers|
    && (forall j :: 0 <= j < |s.nodes| && j != i ==> s'.nodes[j] == s.nodes[j] && h'.peers[j] == h.peers[j])
  }

  /** What node i did is invisible to every session of a term not in busy. */
  ghost predicate QuietBut(h: State, h': State, i: nat, busy: set<nat>)
    requires i < |h.peers| == |h'.peers|
  {
    forall t :: t !in busy && t in h.lead ==> Quiet(h.peers[i], h'.peers[i], t)
  }

  lemma OthersStay(s: Net, s': Net, h: State, h': State, i: nat, busy: set<nat>)
    requires Inv(h) && NodesOk(s, h) && Evolves(h, h') && OnlyNode(s, s', h, h', i)
    requires forall t :: t in h.lead && t !in busy ==> h'.lead[t] == h.lead[t]
    requires QuietBut(h, h', i, busy)
    requires forall j :: 0 <= j < |s.nodes| && j != i && s.nodes[j].role == Leader && s.nodes[j].term in busy ==>
               LeaderOk(h', j, s.nodes[j])
    requires forall t :: t in h'.lead && t !in h.lead ==> h'.lead[t].owner == i
    requires NodeOk(h', i, s'.nodes[i])
    ensures NodesOk(s', h')
  {
    forall j | 0 <= j < |s'.nodes| && j != i ensures NodeOk(h', j, s'.nodes[j]) {
      var n := s.nodes[j];
      assert NodeOk(h, j, n);
      CandidateStays(h, h', j, n);
      if n.role == Leader && n.term !in busy {
        assert ReignOk(h, n.term);
        forall f | 0 <= f < |h.peers| && f != j ensures Quiet(h.peers[f], h'.peers[f], n.term) {}
        LeaderStays(h, h', j, n);
      }
    }
  }

  lemma RpcsStay(s: Net, s': Net, h: State, h': State, i: nat, busy: set<nat>)
    requires Inv(h) && RpcsOk(s, h) && Evolves(h, h') && OnlyNode(s, s', h, h', i) && QuietBut(h, h', i, busy)
    requires forall link :: link in s'.rpcs ==> link in s.rpcs && s'.rpcs[link] == s.rpcs[link]
    requires forall link :: link in s'.rpcs && link.follower == i ==> link.term !in busy
    requires forall link :: link in s'.rpcs && link.leader == i && link.follower < |s.nodes| ==>
               SessionCall(s', link, s'.rpcs[link].request.prevIndex)
    ensures RpcsOk(s', h')
  {
    forall link | link in s'.rpcs
      ensures RpcOk(h', link, s'.rpcs[link]) && SessionCall(s', link, s'.rpcs[link].request.prevIndex)
    {
      assert RpcOk(h, link, s.rpcs[link]);
      assert ReignOk(h, link.term);
      RpcStays(h, h', link, s.rpcs[link]);
    }
  }

  /** The calls at node i as the step leaves them; no call begins or commits. */
  ghost predicate CallMoves(c: Call<Value>, c': Call<Value>) {
    c' == c.(phase := c'.phase) && (c'.phase.Committed? ==> c'.phase == c.phase) &&
    (c'.phase.Waiting? || c'.phase.Woken? <==> c.phase.Waiting? || c.phase.Woken?)
  }

  lemma CallsStay(s: Net, s': Net, h: State, h': State)
    requires CallsOk(s, h) && Evolves(h, h') && |s'.nodes| == |s.nodes| && |s'.calls| == |s.calls|
    requires forall k {:trigger CallMoves(s.calls[k], s'.calls[k])} :: 0 <= k < |s.calls| ==>
               CallMoves(s.calls[k], s'.calls[k]) && CallOk(s', h', s'.calls[k])
    requires forall j :: 0 <= j < |s.nodes| ==> s'.nodes[j].waiting == s.nodes[j].waiting
    ensures CallsOk(s', h')
  {
    forall k | 0 <= k < |s'.calls| ensures CallOk(s', h', s'.calls[k]) {
      assert CallMoves(s.calls[k], s'.calls[k]);
    }
    forall j | 0 <= j < |s'.nodes| ensures WaitingOk(s', j) {
      assert WaitingOk(s, j);
      forall index | index in s'.nodes[j].waiting ensures Registered(s', j, index, s'.nodes[j].waiting[index]) {
        assert Registered(s, j, index, s.nodes[j].waiting[index]);
        var id := s.nodes[j].waiting[index];
        assert CallMoves(s.calls[id], s'.calls[id]);
      }
    }
    forall k, m | 0 <= k < |s.calls| && 0 <= m < |s.calls| ensures RealTime(h', s'.calls[k], s'.calls[m]) {
      assert RealTime(h, s.calls[k], s.calls[m]);
      assert CallMoves(s.calls[k], s'.calls[k]) && CallMoves(s.calls[m], s'.calls[m]);
      RealTimeStays(h, h', s.calls[k], s.calls[m]);
    }
    forall k, m | 0 <= k < m < |s.calls| && s'.calls[k].term == s'.calls[m].term
      ensures s'.calls[k].index < s'.calls[m].index
    {
      assert CallMoves(s.calls[k], s'.calls[k]) && CallMoves(s.calls[m], s'.calls[m]);
    }
  }

  /** Node i moved as Become says: if it stopped leading, its term grew. */
  lemma BecomeCalls(s: Net, s': Net, h: State, h': State, i: nat)
    requires NodesOk(s, h) && CallsOk(s, h) && Evolves(h, h') && i < |s.nodes| == |s'.nodes| && s.now <= s'.now
    requires forall j :: 0 <= j < |s.nodes| && j != i ==> s'.nodes[j] == s.nodes[j]
    requires s'.calls == Become(s, i, s'.nodes[i]).calls
    requires s'.nodes[i].waiting == s.nodes[i].waiting && s.nodes[i].term <= s'.nodes[i].term
    requires s.nodes[i].role == Leader ==>
               (s'.nodes[i].role == Leader <==> s'.nodes[i].term == s.nodes[i].term)
    ensures CallsOk(s', h')
  {
    forall k | 0 <= k < |s.calls|
      ensures CallMoves(s.calls[k], s'.calls[k]) && CallOk(s', h', s'.calls[k])
    {
      var c, c' := s.calls[k], s'.calls[k];
      assert CallOk(s, h, c);
      if c' != c {
        assert ReignEvolves(h.lead[c.term], h'.lead[c.term]);
      } else {
        CallStays(s, s', h, h', c);
      }
    }
    CallsStay(s, s', h, h');
  }

  /** Node i moved; it sent nothing and did not become leader. */
  ghost predicate QuietMove(s: Net, s': Net, i: nat) {
    && i < |s.nodes| == |s'.nodes| && s'.rpcs == s.rpcs && s.now <= s'.now
    && (forall j :: 0 <= j < |s.nodes| && j != i ==> s'.nodes[j] == s.nodes[j])
    && s'.calls == Become(s, i, s'.nodes[i]).calls && s'.nodes[i].waiting == s.nodes[i].waiting
    && (s.nodes[i].role == Leader ==>
          (s'.nodes[i].role == Leader <==> s'.nodes[i].term == s.nodes[i].term))
    && (s'.nodes[i].role == Leader ==>
          s.nodes[i].role == Leader && s'.nodes[i].nextIndex == s.nodes[i].nextIndex)
  }

  /** A step of node i that no session can notice. */
  lemma QuietStep(s: Net, s': Net, h: State, h': State, i: nat)
    requires Inv(h) && Coupled(s, h) && Evolves(h, h') && QuietMove(s, s', i)
    requires |h'.peers| == |h.peers| && h' == SetPeer(h, i, h'.peers[i])
    requires forall t :: Quiet(h.peers[i], h'.peers[i], t)
    requires NodeOk(h', i, s'.nodes[i])
    ensures NodesOk(s', h') && RpcsOk(s', h') && VotingOk(s, h') && CallsOk(s', h')
  {
    assert NodeOk(h, i, s.nodes[i]) && PeerEvolves(h.peers[i], h'.peers[i]);
    OthersStay(s, s', h, h', i, {});
    forall link | link in s'.rpcs && link.leader == i && link.follower < |s.nodes|
      ensures SessionCall(s', link, s'.rpcs[link].request.prevIndex)
    {
      assert RpcOk(h, link, s.rpcs[link]);
    }
    RpcsStay(s, s', h, h', i, {});
    VotingStays(s, h, h');
    BecomeCalls(s, s', h, h', i);
  }

  // ---------------------------------------------------------------- elections

  lemma CampaignNode(h: State, h': State, i: nat, n: Node<Value>)
    requires i < |h.peers| == |h'.peers| && SameNode(n, h.peers[i]) && h'.lead == h.lead
    requires forall t :: t in h.lead && h.lead[t].owner == i ==> t <= n.term
    requires var p := h.peers[i]; var t := p.term + 1;
             h'.peers[i] == p.(term := t, cand := p.cand[t := p.log], vote := p.vote[t := i])
    ensures NodeOk(h', i, StartElection(n, i))
    ensures BallotOk(h', Ballot(StartElection(n, i), i))
    ensures forall t :: Quiet(h.peers[i], h'.peers[i], t)
  {}

  lemma OwnerTerm(h: State, i: nat)
    requires Inv(h) && i < |h.peers|
    ensures forall t :: t in h.lead && h.lead[t].owner == i ==> t <= h.peers[i].term
  {
    forall t | t in h.lead && h.lead[t].owner == i ensures t <= h.peers[i].term { assert ReignOk(h, t); }
  }

  lemma TimeoutStep(s: Net, h: State, i: nat) returns (h': State)
    requires Inv(h) && Coupled(s, h) && CanTimeout(s, i)
    ensures Inv(h') && Evolves(h, h') && Coupled(TimedOut(s, i), h') && SameAccs(h, h') && h'.commits == h.commits
  {
    var s' := TimedOut(s, i);
    assert NodeOk(h, i, s.nodes[i]);
    h' := Campaign(h, i);
    OwnerTerm(h, i);
    CampaignNode(h, h', i, s.nodes[i]);
    QuietStep(s, s', h, h', i);
  }

  /** A node that follows another in a higher term. */
  lemma JoinNode(h: State, h': State, i: nat, n: Node<Value>, t: nat)
    requires i < |h.peers| == |h'.peers| && SameNode(n, h.peers[i]) && h'.lead == h.lead && n.term < t
    requires h'.peers[i] == h.peers[i].(term := t) && t !in h.peers[i].vote
    ensures NodeOk(h', i, UpdateTerm(n, t, None).(role := Follower))
    ensures forall t1 :: Quiet(h.peers[i], h'.peers[i], t1)
  {}

  lemma NoFutureVote(h: State, i: nat, t: nat)
    requires Inv(h) && i < |h.peers| && h.peers[i].term < t
    ensures t !in h.peers[i].vote
  {
    assert NodeInv(h, i);
  }

  lemma EvolvesReflexive(h: State)
    ensures Evolves(h, h)
  {
    forall t | t in h.lead ensures ReignEvolves(h.lead[t], h.lead[t]) { ReignReflexive(h.lead[t]); }
  }

  /** The history of following a candidate or leader of term t. */
  lemma Join(h: State, v: nat, n: Node<Value>, t: nat) returns (h': State)
    requires Inv(h) && v < |h.peers| && NodeOk(h, v, n) && n.term <= t
    ensures Inv(h') && Evolves(h, h') && h' == SetPeer(h, v, h.peers[v].(term := t))
    ensures NodeOk(h', v, JoinTerm(n, t))
    ensures forall t1 :: Quiet(h.peers[v], h'.peers[v], t1)
  {
    h' := RaiseTerm(h, v, t);
    if n.term < t {
      NoFutureVote(h, v, t);
      JoinNode(h, h', v, n, t);
    } else {
      assert h'.peers[v] == h.peers[v];
      assert h'.peers == h.peers;
    }
  }

  /** The history of granting a vote. */
  lemma GrantVote(h: State, v: nat, n: Node<Value>, b: VoteRequest) returns (h': State)
    requires Inv(h) && v < |h.peers| && NodeOk(h, v, n) && BallotOk(h, b)
    requires b.term == n.term && GrantsVote(n, b)
    ensures Inv(h') && Evolves(h, h') && |h'.peers| == |h.peers|
    ensures h' == SetPeer(h, v, h.peers[v].(vote := h'.peers[v].vote))
    ensures NodeOk(h', v, n.(votedFor := Some(b.candidate)))
    ensures b.term in h'.peers[v].vote && h'.peers[v].vote[b.term] == b.candidate
  {
    if n.votedFor.Some? {
      h' := h;
      assert h.peers[v := h.peers[v]] == h.peers;
      EvolvesReflexive(h);
    } else {
      h' := Vote(h, v, b.candidate);
      CandidateStays(h, h', v, n);
      if n.role == Leader { assert ReignOk(h, n.term); }
      LeaderStays(h, h', v, n);
    }
  }

  /** The history of a vote request at node v. */
  lemma VoteHistory(h: State, v: nat, n: Node<Value>, b: VoteRequest) returns (h': State)
    requires Inv(h) && v < |h.peers| && NodeOk(h, v, n) && BallotOk(h, b)
    ensures Inv(h') && Evolves(h, h') && |h'.peers| == |h.peers| && h' == SetPeer(h, v, h'.peers[v])
    ensures forall t :: Quiet(h.peers[v], h'.peers[v], t)
    ensures NodeOk(h', v, HandleVote(n, b).0) && AnswerOk(h', VoteAnswer(v, b, HandleVote(n, b).1))
  {
    if b.term < n.term {
      h' := h;
      EvolvesReflexive(h);
      assert h.peers[v := h.peers[v]] == h.peers;
    } else {
      h' := Join(h, v, n, b.term);
      if GrantsVote(JoinTerm(n, b.term), b) {
        var h1 := h';
        BallotStays(h, h1, b);
        h' := GrantVote(h1, v, JoinTerm(n, b.term), b);
        EvolvesTransitive(h, h1, h');
      }
    }
  }

  lemma AskedMove(s: Net, v: nat, b: VoteRequest)
    requires CanAsk(s, v, b)
    ensures QuietMove(s, Asked(s, v, b), v) && Asked(s, v, b).nodes[v] == HandleVote(s.nodes[v], b).0
  {}

  lemma AskVoteStep(s: Net, h: State, v: nat, b: VoteRequest) returns (h': State)
    requires Inv(h) && Coupled(s, h) && CanAsk(s, v, b)
    ensures Inv(h') && Evolves(h, h') && Coupled(Asked(s, v, b), h') && SameAccs(h, h') && h'.commits == h.commits
  {
    var s' := Asked(s, v, b);
    assert NodeOk(h, v, s.nodes[v]) && BallotOk(h, b);
    h' := VoteHistory(h, v, s.nodes[v], b);
    AskedMove(s, v, b);
    QuietAccs(h, h', v);
    QuietStep(s, s', h, h', v);
    VotingGrows(s, s', h');
  }

  lemma BallotStays(h: State, h': State, b: VoteRequest)
    requires Evolves(h, h') && BallotOk(h, b)
    ensures BallotOk(h', b)
  {
    assert PeerEvolves(h.peers[b.candidate], h'.peers[b.candidate]);
  }

  lemma VotingGrows(s: Net, s': Net, h: State)
    requires VotingOk(s, h)
    requires forall b :: b in s'.ballots && b !in s.ballots ==> BallotOk(h, b)
    requires forall a :: a in s'.answers && a !in s.answers ==> AnswerOk(h, a)
    ensures VotingOk(s', h)
  {
    forall b | b in s'.ballots ensures BallotOk(h, b) {}
    forall a | a in s'.answers ensures AnswerOk(h, a) {}
  }

  // ---------------------------------------------------------------- victory

  lemma NewLeader(h: State, h': State, i: nat, n: Node<Value>, q: set<nat>)
    requires Inv(h) && i < |h.peers| && SameNode(n, h.peers[i]) && n.term !in h.lead
    requires h' == Crowned(h, i, q)
    ensures NodeOk(h', i, BecomeLeader(n, |h.peers|))
    ensures QuietBut(h, h', i, {n.term})
  {
    var n' := BecomeLeader(n, |h.peers|);
    forall f | 0 <= f < |h.peers| && f != i
      ensures SessionOk(h', n.term, f, n'.nextIndex[f], n'.matchIndex[f])
    {
      assert NodeInv(h, f);
    }
  }

  ghost predicate VotesFor(h: State, i: nat, votes: set<nat>)
    requires i < |h.peers|
  {
    forall v :: v in votes ==>
      v < |h.peers| && h.peers[i].term in h.peers[v].vote && h.peers[v].vote[h.peers[i].term] == i
  }

  /** The history of a candidate that has a majority. */
  lemma Victory(h: State, i: nat, n: Node<Value>) returns (h': State)
    requires Inv(h) && i < |h.peers| && NodeOk(h, i, n) && n.role == Candidate
    requires IsQuorum(|h.peers|, n.votes)
    ensures n.term !in h.lead && h' == Crowned(h, i, n.votes)
    ensures Inv(h') && Evolves(h, h')
    ensures NodeOk(h', i, BecomeLeader(n, |h.peers|)) && QuietBut(h, h', i, {n.term})
  {
    if n.term in h.lead { OneLeader(h, i, n.votes); }
    h' := Elect(h, i, n.votes);
    NewLeader(h, h', i, n, n.votes);
  }

  lemma VictoryStep(s: Net, s': Net, h: State, h': State, i: nat)
    requires Inv(h) && Coupled(s, h) && Evolves(h, h') && OnlyNode(s, s', h, h', i)
    requires NodeOk(h', i, s'.nodes[i]) && s'.nodes[i].role == Leader && s.nodes[i].role != Leader
    requires var t := s'.nodes[i].term;
             t == s.nodes[i].term && t !in h.lead && h'.lead.Keys == h.lead.Keys + {t} &&
             (forall t1 :: t1 in h.lead ==> h'.lead[t1] == h.lead[t1]) && QuietBut(h, h', i, {t})
    requires s'.rpcs == s.rpcs && s'.calls == s.calls && s.now <= s'.now
    requires s'.nodes[i].waiting == s.nodes[i].waiting
    ensures NodesOk(s', h') && RpcsOk(s', h') && VotingOk(s, h') && CallsOk(s', h')
  {
    var t := s'.nodes[i].term;
    forall j | 0 <= j < |s.nodes| && j != i && s.nodes[j].role == Leader ensures s.nodes[j].term != t {
      assert NodeOk(h, j, s.nodes[j]);
    }
    OthersStay(s, s', h, h', i, {t});
    forall link | link in s'.rpcs ensures link.term != t { assert RpcOk(h, link, s.rpcs[link]); }
    RpcsStay(s, s', h, h', i, {t});
    VotingStays(s, h, h');
    BecomeCalls(s, s', h, h', i);
  }

  lemma CrownedJoins(s: Net, s': Net, h: State, i: nat, q: set<nat>)
    requires i < |h.peers| == |s'.nodes| && s'.nodes[i].role == Leader && s'.nodes[i].term == h.peers[i].term
    ensures Joins(s, s', h, Crowned(h, i, q))
  {}

  lemma CountedVote(h: State, i: nat, n: Node<Value>, voter: nat)
    requires i < |h.peers| && NodeOk(h, i, n) && n.role == Candidate && VotesFor(h, i, {voter})
    ensures NodeOk(h, i, n.(votes := n.votes + {voter}))
  {}

  /** The history of a counted vote that does not decide the election. */
  lemma CountHistory(h: State, i: nat, n: Node<Value>, size: nat, a: VoteAnswer) returns (h': State)
    requires Inv(h) && i < |h.peers| == size && NodeOk(h, i, n) && AnswerOk(h, a) && a.ballot.candidate == i
    requires var n' := HandleVoteReply(n, size, a.voter, a.ballot.term, a.reply); n'.role == Leader ==> n' == n
    ensures Inv(h') && Evolves(h, h') && |h'.peers| == |h.peers| && h' == SetPeer(h, i, h'.peers[i])
    ensures forall t :: Quiet(h.peers[i], h'.peers[i], t)
    ensures NodeOk(h', i, HandleVoteReply(n, size, a.voter, a.ballot.term, a.reply))
  {
    if n.term < a.reply.term {
      h' := Join(h, i, n, a.reply.term);
    } else {
      h' := h;
      assert h.peers[i := h.peers[i]] == h.peers;
      EvolvesReflexive(h);
      if HandleVoteReply(n, size, a.voter, a.ballot.term, a.reply) != n { CountedVote(h, i, n, a.voter); }
    }
  }

  lemma CountedMove(s: Net, a: VoteAnswer)
    requires CanCount(s, a)
    ensures var i := a.ballot.candidate;
            Counted(s, a).nodes[i] == HandleVoteReply(s.nodes[i], |s.nodes|, a.voter, a.ballot.term, a.reply)
    ensures var i := a.ballot.candidate; var n, n' := s.nodes[i], Counted(s, a).nodes[i];
            (n'.role == Leader ==> n' == n) ==> QuietMove(s, Counted(s, a), i)
  {}

  lemma WonMove(s: Net, a: VoteAnswer)
    requires CanCount(s, a)
    requires var i := a.ballot.candidate; var n, n' := s.nodes[i], Counted(s, a).nodes[i];
             n'.role == Leader && n' != n
    ensures var i := a.ballot.candidate; var n, s' := s.nodes[i], Counted(s, a);
            var w := n.(votes := n.votes + {a.voter});
            n.role == Candidate && a.reply.granted && a.ballot.term == n.term &&
            |w.votes| == Majority(|s.nodes|) &&
            s' == s.(nodes := s.nodes[i := BecomeLeader(w, |s.nodes|)], now := s.now + 1)
  {}

  lemma CountVoteStep(s: Net, h: State, a: VoteAnswer) returns (h': State)
    requires Inv(h) && Coupled(s, h) && CanCount(s, a)
    ensures Inv(h') && Evolves(h, h') && Coupled(Counted(s, a), h')
    ensures Joins(s, Counted(s, a), h, h') && h'.commits == h.commits
  {
    var s' := Counted(s, a);
    var i := a.ballot.candidate;
    var n := s.nodes[i];
    assert NodeOk(h, i, n) && AnswerOk(h, a);
    CountedMove(s, a);
    if s'.nodes[i].role == Leader && s'.nodes[i] != n {
      h' := WonStep(s, h, a);
    } else {
      h' := CountHistory(h, i, n, |s.nodes|, a);
      QuietAccs(h, h', i);
      SameAccsJoin(s, s', h, h');
      QuietStep(s, s', h, h', i);
    }
    VotingGrows(s, s', h');
  }

  /** The vote that makes a leader. */
  lemma WonStep(s: Net, h: State, a: VoteAnswer) returns (h': State)
    requires Inv(h) && Coupled(s, h) && CanCount(s, a)
    requires var i := a.ballot.candidate; Counted(s, a).nodes[i].role == Leader && Counted(s, a).nodes[i] != s.nodes[i]
    ensures Inv(h') && Evolves(h, h') && Joins(s, Counted(s, a), h, h') && h'.commits == h.commits
    ensures var s' := Counted(s, a); NodesOk(s', h') && RpcsOk(s', h') && VotingOk(s, h') && CallsOk(s', h')
  {
    var i := a.ballot.candidate;
    var n, s' := s.nodes[i], Counted(s, a);
    assert NodeOk(h, i, n) && AnswerOk(h, a);
    WonMove(s, a);
    CountedVote(h, i, n, a.voter);
    h' := Victory(h, i, n.(votes := n.votes + {a.voter}));
    CrownedJoins(s, s', h, i, n.votes + {a.voter});
    VictoryStep(s, s', h, h', i);
  }

  // ---------------------------------------------------------------- crashes and losses

  lemma CrashStep(s: Net, h: State, i: nat) returns (h': State)
    requires Inv(h) && Coupled(s, h) && i < |s.nodes|
    ensures Inv(h') && Evolves(h, h') && Coupled(Crashed(s, i), h') && SameAccs(h, h') && h'.commits == h.commits
  {
    var s' := Crashed(s, i);
    assert NodeOk(h, i, s.nodes[i]);
    h' := Learn(h, i, 0);
    OthersStay(s, s', h, h', i, {});
    RpcsStay(s, s', h, h', i, {});
    VotingStays(s, h, h');
    VotingGrows(s, s', h');
    CrashCalls(s, s', h, h', i);
  }

  lemma AbortedCall(s: Net, s': Net, h: State, h': State, i: nat, c: Call<Value>)
    requires Evolves(h, h') && CallOk(s, h, c) && i < |s.nodes| && s' == Crashed(s, i)
    ensures CallOk(s', h', AbortCall(c, i))
  {
    assert ReignEvolves(h.lead[c.term], h'.lead[c.term]);
    if c.phase.Committed? { ResultStays(h, h', c, c.phase.applied); }
    else if c.node != i { CallStays(s, s', h, h', c); }
  }

  lemma CrashCalls(s: Net, s': Net, h: State, h': State, i: nat)
    requires CallsOk(s, h) && Evolves(h, h') && i < |s.nodes| && s' == Crashed(s, i)
    ensures CallsOk(s', h')
  {
    forall k | 0 <= k < |s'.calls| ensures CallOk(s', h', s'.calls[k]) {
      assert CallOk(s, h, s.calls[k]);
      AbortedCall(s, s', h, h', i, s.calls[k]);
    }
    forall j | 0 <= j < |s'.nodes| ensures WaitingOk(s', j) {
      assert WaitingOk(s, j);
    }
    forall k, m | 0 <= k < |s.calls| && 0 <= m < |s.calls| ensures RealTime(h', s'.calls[k], s'.calls[m]) {
      assert RealTime(h, s.calls[k], s.calls[m]);
      RealTimeStays(h, h', s.calls[k], s.calls[m]);
    }
  }

  lemma LoseStep(s: Net, h: State, link: Link) returns (h': State)
    requires Inv(h) && Coupled(s, h)
    ensures Inv(h') && Evolves(h, h') && Coupled(Lost(s, link), h') && SameAccs(h, h') && h'.commits == h.commits
  {
    var s' := Lost(s, link);
    h' := h;
    EvolvesReflexive(h);
    forall i | 0 <= i < |s'.nodes| ensures NodeOk(h, i, s'.nodes[i]) { assert NodeOk(h, i, s.nodes[i]); }
    forall link | link in s'.rpcs
      ensures RpcOk(h, link, s'.rpcs[link]) && SessionCall(s', link, s'.rpcs[link].request.prevIndex)
    {
      assert RpcOk(h, link, s.rpcs[link]);
    }
    VotingGrows(s, s', h);
    SameCalls(s, s', h);
  }

  lemma SameCalls(s: Net, s': Net, h: State)
    requires CallsOk(s, h) && s'.calls == s.calls && s'.nodes == s.nodes && s.now <= s'.now
    ensures CallsOk(s', h)
  {
    EvolvesReflexive(h);
    forall k | 0 <= k < |s.calls| ensures CallMoves(s.calls[k], s'.calls[k]) && CallOk(s', h, s'.calls[k]) {
      assert CallOk(s, h, s.calls[k]);
      CallStays(s, s', h, h, s.calls[k]);
    }
    CallsStay(s, s', h, h);
  }
}
