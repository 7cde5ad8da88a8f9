/** The steps of the history and the proof that each of them keeps Consensus.Inv. */
module ConsensusSteps {
  import opened Entries
  import opened Consensus

  // ---------------------------------------------------------------- framing

  lemma CoveredStays(s: State, s': State, n: nat, t: nat, log: Log)
    requires Evolves(s, s') && n < |s.peers| && PeerOk(s, n) && t <= s.peers[n].term && Covered(s, n, t, log)
    ensures Covered(s', n, t, log)
  {
    var p, p' := s.peers[n], s'.peers[n];
    assert PeerEvolves(p, p');
    forall t0, i | t0 in p'.acc && t0 < t && t0 in s'.lead && s'.lead[t0].base < i <= p'.acc[t0].high
      ensures Agree(log, s'.lead[t0].log, i) || Dead(s', t0, i)
    {
      assert ReignEvolves(s.lead[t0], s'.lead[t0]);
      if Dead(s, t0, i) { DeadStays(s, s', t0, i); } else { assert Agree(log, s.lead[t0].log, i); }
    }
  }

  lemma VotesStay(s: State, s': State, n: nat)
    requires Evolves(s, s') && n < |s.peers| && PeerOk(s, n) && VotesOk(s, n)
    requires s'.peers[n].vote == s.peers[n].vote
    ensures VotesOk(s', n)
  {
    var p := s.peers[n];
    assert PeerEvolves(p, s'.peers[n]);
    forall t | t in p.vote
      ensures t <= s'.peers[n].term && p.vote[t] < |s'.peers| && t in s'.peers[p.vote[t]].cand &&
              Covered(s', n, t, s'.peers[p.vote[t]].cand[t])
    {
      assert PeerEvolves(s.peers[p.vote[t]], s'.peers[p.vote[t]]);
      CoveredStays(s, s', n, t, s.peers[p.vote[t]].cand[t]);
    }
  }

  lemma CandidatesStay(s: State, s': State, n: nat)
    requires Evolves(s, s') && n < |s.peers| && CandidatesOk(s, n) && s'.peers[n].cand == s.peers[n].cand
    ensures CandidatesOk(s', n)
  {
    assert PeerEvolves(s.peers[n], s'.peers[n]);
    forall t | t in s.peers[n].cand ensures Sound(s', s.peers[n].cand[t]) {
      SoundStays(s, s', s.peers[n].cand[t]);
    }
  }

  /** The acknowledgements stay; their lower bounds may have risen. */
  ghost predicate SameHighs(p: Peer, p': Peer) {
    p'.acc.Keys == p.acc.Keys && forall t :: t in p.acc ==> p'.acc[t].high == p.acc[t].high
  }

  lemma HoldsStays(s: State, s': State, n: nat)
    requires Evolves(s, s') && n < |s.peers| && PeerOk(s, n) && Holds(s, n)
    requires SameHighs(s.peers[n], s'.peers[n]) && s'.peers[n].log == s.peers[n].log
    ensures Holds(s', n)
  {
    var p, p' := s.peers[n], s'.peers[n];
    forall t, i | t in p'.acc && t in s'.lead && s'.lead[t].base < i <= p'.acc[t].high
      ensures Agree(p'.log, s'.lead[t].log, i) || Dead(s', t, i)
    {
      assert ReignEvolves(s.lead[t], s'.lead[t]);
      if Dead(s, t, i) { DeadStays(s, s', t, i); } else { assert Agree(p.log, s.lead[t].log, i); }
    }
  }

  lemma GuardedStays(s: State, s': State, n: nat)
    requires Evolves(s, s') && n < |s.peers| && PeerOk(s, n) && Guarded(s, n)
    requires SameHighs(s.peers[n], s'.peers[n])
    ensures Guarded(s', n)
  {
    var p, p' := s.peers[n], s'.peers[n];
    assert PeerEvolves(p, p');
    if p'.term in p'.acc && p'.term == p.term {
      forall t, i | t in p'.acc && t < p'.term && t in s'.lead && s'.lead[t].base < i <= p'.acc[t].high
        ensures i <= p'.acc[p'.term].low || Dead(s', t, i)
      {
        assert ReignEvolves(s.lead[t], s'.lead[t]);
        if Dead(s, t, i) { DeadStays(s, s', t, i); } else { assert i <= p.acc[p.term].low; }
      }
    }
  }

  lemma PeerStays(s: State, s': State, n: nat)
    requires Evolves(s, s') && n < |s.peers| && PeerOk(s, n) && SameHighs(s.peers[n], s'.peers[n])
    requires forall t :: t in s'.peers[n].acc ==> s'.peers[n].acc[t].low <= s'.peers[n].acc[t].high
    requires s'.peers[n].log == s.peers[n].log
    ensures PeerOk(s', n)
  {
    var p, p' := s.peers[n], s'.peers[n];
    assert PeerEvolves(p, p');
    SoundStays(s, s', p.log);
    forall t | t in p'.acc
      ensures t <= p'.term && t in s'.lead && p'.acc[t].low <= p'.acc[t].high <= |s'.lead[t].log|
    {
      assert ReignEvolves(s.lead[t], s'.lead[t]);
    }
    if p'.term in p'.acc {
      assert ReignEvolves(s.lead[p.term], s'.lead[p.term]);
    }
  }

  /** A node whose log, acknowledgements, votes and candidacies stay keeps its invariant. */
  lemma NodeStays(s: State, s': State, n: nat)
    requires Evolves(s, s') && n < |s.peers| && NodeInv(s, n) && SameHighs(s.peers[n], s'.peers[n])
    requires forall t :: t in s'.peers[n].acc ==> s'.peers[n].acc[t].low <= s'.peers[n].acc[t].high
    requires s'.peers[n].log == s.peers[n].log && s'.peers[n].commit == s.peers[n].commit
    requires s'.peers[n].vote == s.peers[n].vote && s'.peers[n].cand == s.peers[n].cand
    ensures NodeInv(s', n)
  {
    assert PeerEvolves(s.peers[n], s'.peers[n]);
    PeerStays(s, s', n);
    HoldsStays(s, s', n);
    GuardedStays(s, s', n);
    VotesStay(s, s', n);
    CandidatesStay(s, s', n);
    KnownStays(s, s', s.peers[n].term, s'.peers[n].term, s.peers[n].log, s.peers[n].commit);
  }

  lemma ReignStays(s: State, s': State, t: nat)
    requires Evolves(s, s') && t in s.lead && ReignOk(s, t) && s'.lead[t] == s.lead[t]
    ensures ReignOk(s', t)
  {
    SoundStays(s, s', s.lead[t].log);
    assert PeerEvolves(s.peers[s.lead[t].owner], s'.peers[s.lead[t].owner]);
    forall v | v in s.lead[t].electors
      ensures s'.peers[v].term >= t && t in s'.peers[v].vote && s'.peers[v].vote[t] == s.lead[t].owner
    {
      assert PeerEvolves(s.peers[v], s'.peers[v]);
    }
  }

  lemma OrderedStays(s: State, s': State, t0: nat, t: nat)
    requires Evolves(s, s') && t0 in s.lead && t in s.lead && ReignOk(s, t) && Ordered(s, t0, t)
    requires |s'.lead[t0].log| == |s.lead[t0].log|
    ensures Ordered(s', t0, t)
  {
    assert ReignEvolves(s.lead[t0], s'.lead[t0]) && ReignEvolves(s.lead[t], s'.lead[t]);
    forall i | s'.lead[t0].base < i <= |s'.lead[t0].log|
      ensures Dead(s', t0, i) || (i <= s'.lead[t].base && Agree(s'.lead[t0].log, s'.lead[t].log, i))
    {
      if Dead(s, t0, i) { DeadStays(s, s', t0, i); }
      else { assert Agree(s.lead[t0].log, s.lead[t].log, i); }
    }
  }

  /** A step that leaves leaders and commits alone, and all nodes but n. */
  lemma OneNodeStep(s: State, s': State, n: nat)
    requires Inv(s) && Evolves(s, s') && n < |s.peers| && NodeInv(s', n)
    requires s'.lead == s.lead && s'.commits == s.commits
    requires forall m :: 0 <= m < |s.peers| && m != n ==> s'.peers[m] == s.peers[m]
    ensures Inv(s')
  {
    forall m | 0 <= m < |s.peers| && m != n ensures NodeInv(s', m) {
      assert NodeInv(s, m);
      NodeStays(s, s', m);
    }
    forall t | t in s'.lead ensures ReignOk(s', t) { ReignStays(s, s', t); }
    forall t0, t | t0 in s'.lead && t in s'.lead && t0 < t ensures Ordered(s', t0, t) {
      OrderedStays(s, s', t0, t);
    }
    forall c | c in s'.commits ensures Chosen(s', c) { ChosenStays(s, s', c); }
  }

  // ---------------------------------------------------------------- terms and votes

  function SetPeer(s: State, n: nat, p: Peer): State
    requires n < |s.peers|
  {
    s.(peers := s.peers[n := p])
  }

  lemma ReignReflexive(r: Reign)
    ensures ReignEvolves(r, r)
  {}

  lemma PeerStep(s: State, n: nat, p: Peer)
    requires n < |s.peers| && PeerEvolves(s.peers[n], p)
    ensures Evolves(s, SetPeer(s, n, p))
  {
    forall t | t in s.lead ensures ReignEvolves(s.lead[t], s.lead[t]) { ReignReflexive(s.lead[t]); }
  }

  lemma RaiseTerm(s: State, n: nat, t: nat) returns (s': State)
    requires Inv(s) && n < |s.peers| && s.peers[n].term <= t
    ensures s' == SetPeer(s, n, s.peers[n].(term := t))
    ensures Inv(s') && Evolves(s, s')
  {
    var p' := s.peers[n].(term := t);
    s' := SetPeer(s, n, p');
    assert NodeInv(s, n);
    PeerStep(s, n, p');
    NodeStays(s, s', n);
    OneNodeStep(s, s', n);
  }

  /** A new vote in the node's current term, for a candidate that covers what it acknowledged. */
  lemma VotesKept(s: State, s': State, n: nat, c: nat)
    requires Evolves(s, s') && n < |s.peers| && PeerOk(s, n) && VotesOk(s, n)
    requires var t := s'.peers[n].term;
             s'.peers[n].vote == s.peers[n].vote[t := c] && c < |s.peers| &&
             t in s'.peers[c].cand && Covered(s', n, t, s'.peers[c].cand[t])
    ensures VotesOk(s', n)
  {
    var p, p' := s.peers[n], s'.peers[n];
    assert PeerEvolves(p, p');
    forall t | t in p'.vote
      ensures t <= p'.term && p'.vote[t] < |s'.peers| && t in s'.peers[p'.vote[t]].cand &&
              Covered(s', n, t, s'.peers[p'.vote[t]].cand[t])
    {
      if t != p'.term {
        assert PeerEvolves(s.peers[p.vote[t]], s'.peers[p.vote[t]]);
        CoveredStays(s, s', n, t, s.peers[p.vote[t]].cand[t]);
      }
    }
  }

  /** A node opens an election: it moves to the next term and votes for itself. */
  lemma Campaign(s: State, n: nat) returns (s': State)
    requires Inv(s) && n < |s.peers|
    ensures var p := s.peers[n]; var t := p.term + 1;
            s' == SetPeer(s, n, p.(term := t, cand := p.cand[t := p.log], vote := p.vote[t := n]))
    ensures Inv(s') && Evolves(s, s')
  {
    var p := s.peers[n];
    var t := p.term + 1;
    assert NodeInv(s, n);
    var p' := p.(term := t, cand := p.cand[t := p.log], vote := p.vote[t := n]);
    s' := SetPeer(s, n, p');
    PeerStep(s, n, p');
    CampaignKeeps(s, s', n);
    OneNodeStep(s, s', n);
  }

  lemma CampaignKeeps(s: State, s': State, n: nat)
    requires n < |s.peers| && NodeInv(s, n) && Evolves(s, s')
    requires var p := s.peers[n]; var t := p.term + 1;
            s' == SetPeer(s, n, p.(term := t, cand := p.cand[t := p.log], vote := p.vote[t := n]))
    ensures NodeInv(s', n)
  {
    PeerStays(s, s', n);
    HoldsStays(s, s', n);
    GuardedStays(s, s', n);
    KnownStays(s, s', s.peers[n].term, s'.peers[n].term, s.peers[n].log, s.peers[n].commit);
    CandidatesKept(s, s', n);
    assert Holds(s', n);
    VotesKept(s, s', n, n);
  }

  lemma CandidatesKept(s: State, s': State, n: nat)
    requires Evolves(s, s') && n < |s.peers| && PeerOk(s, n) && CandidatesOk(s, n)
    requires forall t :: t in s'.peers[n].cand ==>
               t in s.peers[n].cand ||
               (t <= s'.peers[n].term && s'.peers[n].cand[t] == s.peers[n].log && s.peers[n].term < t)
    ensures CandidatesOk(s', n)
  {
    assert PeerEvolves(s.peers[n], s'.peers[n]);
    forall t | t in s'.peers[n].cand
      ensures t <= s'.peers[n].term && Sound(s', s'.peers[n].cand[t]) &&
              forall k :: 0 <= k < |s'.peers[n].cand[t]| ==> s'.peers[n].cand[t][k].term < t
    {
      if t in s.peers[n].cand {
        SoundStays(s, s', s.peers[n].cand[t]);
      } else {
        SoundStays(s, s', s.peers[n].log);
      }
    }
  }

  /** The voting rule: the candidate's log is at least as complete, by last term and then length. */
  predicate UpToDate(candidate: Log, voter: Log) {
    LastTerm(voter) < LastTerm(candidate) ||
    (LastTerm(voter) == LastTerm(candidate) && |voter| <= |candidate|)
  }

  /** An up-to-date candidate holds what the voter holds, as far as it can still be committed. */
  lemma UpToDateCovers(s: State, log: Log, cand: Log, t0: nat, i: nat)
    requires Inv(s) && Sound(s, log) && Sound(s, cand) && UpToDate(cand, log)
    requires t0 in s.lead && s.lead[t0].base < i <= |s.lead[t0].log| && Agree(log, s.lead[t0].log, i)
    ensures Agree(cand, s.lead[t0].log, i) || Dead(s, t0, i)
  {
    assert ReignOk(s, t0);
    assert log[i-1].term == t0;
    assert t0 <= LastTerm(log);
    assert 0 < |log| <= |cand| || LastTerm(cand) > t0;
    var t := LastTerm(cand);
    assert Anchored(s, cand, |cand| - 1);
    assert ReignOk(s, t);
    if LastTerm(log) == t {
      assert Anchored(s, log, |log| - 1);
      assert Agree(log, cand, |log|);
    } else {
      assert Ordered(s, t0, t);
      assert s.lead[t].base < |cand|;
    }
  }

  lemma UpToDateCovered(s: State, v: nat, log: Log)
    requires Inv(s) && v < |s.peers| && Sound(s, log) && UpToDate(log, s.peers[v].log)
    ensures Covered(s, v, s.peers[v].term, log)
  {
    var p := s.peers[v];
    assert NodeInv(s, v);
    forall t0, i | t0 in p.acc && t0 < p.term && t0 in s.lead && s.lead[t0].base < i <= p.acc[t0].high
      ensures Agree(log, s.lead[t0].log, i) || Dead(s, t0, i)
    {
      if !Dead(s, t0, i) { UpToDateCovers(s, p.log, log, t0, i); }
    }
  }

  lemma Vote(s: State, v: nat, c: nat) returns (s': State)
    requires Inv(s) && v < |s.peers| && c < |s.peers|
    requires s.peers[v].term !in s.peers[v].vote && s.peers[v].term in s.peers[c].cand
    requires UpToDate(s.peers[c].cand[s.peers[v].term], s.peers[v].log)
    ensures var p := s.peers[v]; s' == SetPeer(s, v, p.(vote := p.vote[p.term := c]))
    ensures Inv(s') && Evolves(s, s')
  {
    var p := s.peers[v];
    assert NodeInv(s, v) && NodeInv(s, c);
    UpToDateCovered(s, v, s.peers[c].cand[p.term]);
    var p' := p.(vote := p.vote[p.term := c]);
    s' := SetPeer(s, v, p');
    PeerStep(s, v, p');
    VoteKeeps(s, s', v, c);
    OneNodeStep(s, s', v);
  }

  lemma VoteKeeps(s: State, s': State, v: nat, c: nat)
    requires v < |s.peers| && c < |s.peers| && NodeInv(s, v) && Evolves(s, s')
    requires s.peers[v].term in s.peers[c].cand && Covered(s, v, s.peers[v].term, s.peers[c].cand[s.peers[v].term])
    requires var p := s.peers[v]; s' == SetPeer(s, v, p.(vote := p.vote[p.term := c]))
    ensures NodeInv(s', v)
  {
    PeerStays(s, s', v);
    HoldsStays(s, s', v);
    GuardedStays(s, s', v);
    CandidatesStay(s, s', v);
    KnownStays(s, s', s.peers[v].term, s.peers[v].term, s.peers[v].log, s.peers[v].commit);
    CoveredStays(s, s', v, s.peers[v].term, s.peers[c].cand[s.peers[v].term]);
    VotesKept(s, s', v, c);
  }

  /** Election safety: a term that has a leader cannot elect another node. */
  lemma OneLeader(s: State, c: nat, q: set<nat>)
    requires Inv(s) && c < |s.peers| && IsQuorum(|s.peers|, q)
    requires s.peers[c].term in s.lead
    requires forall v :: v in q ==> s.peers[c].term in s.peers[v].vote && s.peers[v].vote[s.peers[c].term] == c
    ensures s.lead[s.peers[c].term].owner == c
  {
    assert ReignOk(s, s.peers[c].term);
    var v := QuorumsMeet(|s.peers|, q, s.lead[s.peers[c].term].electors);
  }

  // ---------------------------------------------------------------- leadership

  lemma StillOrdered(s: State, s': State, t0: nat, t1: nat)
    requires Inv(s) && Evolves(s, s') && t0 in s.lead && t1 in s.lead && t0 < t1
    requires s'.lead[t0] == s.lead[t0] && s'.lead[t1] == s.lead[t1]
    ensures Ordered(s', t0, t1)
  {
    assert Ordered(s, t0, t1) && ReignOk(s, t1);
    OrderedStays(s, s', t0, t1);
  }

  /** A step that touches node n and the leader of term t, and adds no commit. */
  lemma LeaderStep(s: State, s': State, n: nat, t: nat)
    requires Inv(s) && Evolves(s, s') && n < |s.peers| && NodeInv(s', n)
    requires forall m :: 0 <= m < |s.peers| && m != n ==> s'.peers[m] == s.peers[m]
    requires s'.commits == s.commits && t in s'.lead && ReignOk(s', t)
    requires s'.lead.Keys == s.lead.Keys + {t}
    requires forall t1 :: t1 in s.lead && t1 != t ==> s'.lead[t1] == s.lead[t1]
    requires forall t0 :: t0 in s.lead && t0 < t ==> Ordered(s', t0, t)
    requires forall t1 :: t1 in s.lead && t < t1 ==> Ordered(s', t, t1)
    ensures Inv(s')
  {
    forall m | 0 <= m < |s.peers| && m != n ensures NodeInv(s', m) {
      assert NodeInv(s, m);
      NodeStays(s, s', m);
    }
    forall t1 | t1 in s'.lead && t1 != t ensures ReignOk(s', t1) { ReignStays(s, s', t1); }
    forall t0, t1 | t0 in s'.lead && t1 in s'.lead && t0 < t1 ensures Ordered(s', t0, t1) {
      if t0 != t && t1 != t { StillOrdered(s, s', t0, t1); }
    }
    forall c | c in s'.commits ensures Chosen(s', c) { ChosenStays(s, s', c); }
  }

  ghost predicate Won(s: State, c: nat, q: set<nat>)
    requires c < |s.peers|
  {
    var t := s.peers[c].term;
    && t in s.peers[c].cand && s.peers[c].cand[t] == s.peers[c].log
    && IsQuorum(|s.peers|, q)
    && forall v :: v in q ==> t in s.peers[v].vote && s.peers[v].vote[t] == c
  }

  function Crowned(s: State, c: nat, q: set<nat>): State
    requires c < |s.peers|
  {
    var p := s.peers[c];
    s.(peers := s.peers[c := p.(acc := p.acc[p.term := Acc(|p.log|, |p.log|)])],
       lead := s.lead[p.term := Reign(c, p.log, |p.log|, q)])
  }

  lemma ElectOrdered(s: State, c: nat, q: set<nat>, t0: nat)
    requires Inv(s) && c < |s.peers| && Won(s, c, q) && t0 in s.lead && t0 < s.peers[c].term
    ensures forall i :: s.lead[t0].base < i <= |s.lead[t0].log| ==>
              Dead(s, t0, i) || Agree(s.lead[t0].log, s.peers[c].log, i)
  {
    var t, log := s.peers[c].term, s.peers[c].log;
    forall i | s.lead[t0].base < i <= |s.lead[t0].log|
      ensures Dead(s, t0, i) || Agree(s.lead[t0].log, log, i)
    {
      if v :| v in q && t0 in s.peers[v].acc && i <= s.peers[v].acc[t0].high {
        assert NodeInv(s, v);
        assert Covered(s, v, t, log);
      } else {
        forall v | v in q ensures s.peers[v].term > t0 { assert NodeInv(s, v); }
        assert DeadBy(s, t0, i, q);
      }
    }
  }

  lemma ElectEvolves(s: State, c: nat, q: set<nat>)
    requires Inv(s) && c < |s.peers| && s.peers[c].term !in s.lead
    ensures Evolves(s, Crowned(s, c, q))
  {
    assert NodeInv(s, c);
    assert PeerEvolves(s.peers[c], Crowned(s, c, q).peers[c]);
    forall t | t in s.lead ensures ReignEvolves(s.lead[t], s.lead[t]) { ReignReflexive(s.lead[t]); }
  }

  lemma ElectedNode(s: State, s': State, c: nat, q: set<nat>)
    requires c < |s.peers| && NodeInv(s, c) && s.peers[c].term !in s.lead
    requires s' == Crowned(s, c, q) && Evolves(s, s')
    ensures NodeInv(s', c)
  {
    var p, p' := s.peers[c], s'.peers[c];
    SoundStays(s, s', p.log);
    VotesStay(s, s', c);
    CandidatesStay(s, s', c);
    KnownStays(s, s', p.term, p.term, p.log, p.commit);
    forall t, i | t in p'.acc && t in s'.lead && s'.lead[t].base < i <= p'.acc[t].high
      ensures Agree(p'.log, s'.lead[t].log, i) || Dead(s', t, i)
    {
      assert t != p.term && s'.lead[t] == s.lead[t];
      if Dead(s, t, i) { DeadStays(s, s', t, i); }
    }
  }

  /** A candidate with a majority of votes becomes the leader of its term. */
  lemma Elect(s: State, c: nat, q: set<nat>) returns (s': State)
    requires Inv(s) && c < |s.peers| && Won(s, c, q) && s.peers[c].term !in s.lead
    ensures s' == Crowned(s, c, q)
    ensures Inv(s') && Evolves(s, s')
  {
    s' := Crowned(s, c, q);
    var t := s.peers[c].term;
    assert NodeInv(s, c);
    ElectEvolves(s, c, q);
    ElectedNode(s, s', c, q);
    SoundStays(s, s', s.peers[c].log);
    assert ReignOk(s', t) by {
      forall v | v in q ensures s'.peers[v].term >= t && t in s'.peers[v].vote && s'.peers[v].vote[t] == c {
        assert NodeInv(s, v);
      }
    }
    forall t0 | t0 in s.lead && t0 < t ensures Ordered(s', t0, t) {
      ElectOrdered(s, c, q, t0);
      forall i | s'.lead[t0].base < i <= |s'.lead[t0].log|
        ensures Dead(s', t0, i) || (i <= s'.lead[t].base && Agree(s'.lead[t0].log, s'.lead[t].log, i))
      {
        if Dead(s, t0, i) { DeadStays(s, s', t0, i); }
      }
    }
    LeaderStep(s, s', c, t);
  }

  function Extended(s: State, t: nat, e: Entry<Value>): State
    requires t in s.lead
  {
    s.(lead := s.lead[t := s.lead[t].(log := s.lead[t].log + [e])])
  }

  lemma AppendEvolves(s: State, t: nat, e: Entry<Value>)
    requires t in s.lead
    ensures Evolves(s, Extended(s, t, e))
  {
    forall t1 | t1 in s.lead ensures ReignEvolves(s.lead[t1], Extended(s, t, e).lead[t1]) {
      ReignReflexive(s.lead[t1]);
    }
  }

  /** What a superseded leader appends can never be committed. */
  lemma AppendDead(s: State, t: nat, t1: nat)
    requires Inv(s) && t in s.lead && t1 in s.lead && t < t1
    ensures Dead(s, t, |s.lead[t].log| + 1)
  {
    assert ReignOk(s, t1);
    var q := s.lead[t1].electors;
    forall v | v in q
      ensures s.peers[v].term > t && (t in s.peers[v].acc ==> s.peers[v].acc[t].high < |s.lead[t].log| + 1)
    {
      assert NodeInv(s, v);
    }
    assert DeadBy(s, t, |s.lead[t].log| + 1, q);
  }

  lemma AppendOrdered(s: State, s': State, t: nat, t1: nat, e: Entry<Value>)
    requires Inv(s) && t in s.lead && t1 in s.lead && t < t1 && s' == Extended(s, t, e) && Evolves(s, s')
    ensures Ordered(s', t, t1)
  {
    assert Ordered(s, t, t1) && ReignOk(s, t);
    AppendDead(s, t, t1);
    forall i | s'.lead[t].base < i <= |s'.lead[t].log|
      ensures Dead(s', t, i) || (i <= s'.lead[t1].base && Agree(s'.lead[t].log, s'.lead[t1].log, i))
    {
      if Dead(s, t, i) { DeadStays(s, s', t, i); }
    }
  }

  lemma AppendReign(s: State, s': State, t: nat, e: Entry<Value>)
    requires t in s.lead && ReignOk(s, t) && e.term == t && s' == Extended(s, t, e) && Evolves(s, s')
    ensures ReignOk(s', t)
  {
    var log := s.lead[t].log;
    SoundStays(s, s', log);
    forall k | 0 <= k < |log| + 1 ensures Anchored(s', log + [e], k) {
      if k < |log| { assert Anchored(s', log, k); }
    }
  }

  lemma AppendBelow(s: State, s': State, t: nat, t0: nat, e: Entry<Value>)
    requires t in s.lead && t0 in s.lead && t0 < t && ReignOk(s, t) && Ordered(s, t0, t)
    requires s' == Extended(s, t, e) && Evolves(s, s')
    ensures Ordered(s', t0, t)
  {
    OrderedStays(s, s', t0, t);
  }

  /** The leader of term t appends an entry of its term. */
  lemma Append(s: State, t: nat, e: Entry<Value>) returns (s': State)
    requires Inv(s) && t in s.lead && e.term == t
    ensures s' == Extended(s, t, e)
    ensures Inv(s') && Evolves(s, s')
  {
    s' := Extended(s, t, e);
    AppendEvolves(s, t, e);
    assert ReignOk(s, t);
    AppendReign(s, s', t, e);
    var n := s.lead[t].owner;
    assert NodeInv(s, n);
    NodeStays(s, s', n);
    forall t0 | t0 in s.lead && t0 < t ensures Ordered(s', t0, t) {
      AppendBelow(s, s', t, t0, e);
    }
    forall t1 | t1 in s.lead && t < t1 ensures Ordered(s', t, t1) {
      AppendOrdered(s, s', t, t1, e);
    }
    LeaderStep(s, s', n, t);
  }

  // ---------------------------------------------------------------- replication

  /** Node n may accept a request of its current term that starts at prev and ends at last. */
  ghost predicate Acceptable(s: State, n: nat, prev: nat, last: nat)
    requires n < |s.peers|
  {
    var p := s.peers[n];
    var t := p.term;
    && t in s.lead && prev <= last <= |s.lead[t].log|
    && Agree(p.log, s.lead[t].log, prev)
    && (t in p.acc ==> p.acc[t].low <= prev)
    && (t !in p.acc ==> forall q :: prev < q <= s.lead[t].base ==> !Matches(p.log, s.lead[t].log, q))
  }

  function Accepted(s: State, n: nat, prev: nat, last: nat): State
    requires n < |s.peers| && s.peers[n].term in s.lead
  {
    var p := s.peers[n];
    var t := p.term;
    var low := if t in p.acc then p.acc[t].low else prev;
    SetPeer(s, n, p.(log := Take(s.lead[t].log, Max(last, p.commit)), acc := p.acc[t := Acc(low, last)]))
  }

  /** The probing argument: whatever the node acknowledged in an earlier term and may still be
      committed lies at or below the first previous index it accepts in the new term. */
  lemma FirstAcceptAbove(s: State, n: nat, prev: nat, last: nat, t0: nat, i: nat)
    requires Inv(s) && n < |s.peers| && Acceptable(s, n, prev, last)
    requires t0 in s.peers[n].acc && t0 < s.peers[n].term && t0 in s.lead
    requires s.lead[t0].base < i <= s.peers[n].acc[t0].high && !Dead(s, t0, i)
    ensures i <= prev && Agree(s.lead[t0].log, s.lead[s.peers[n].term].log, i)
    ensures i <= (if s.peers[n].term in s.peers[n].acc then s.peers[n].acc[s.peers[n].term].low else prev)
  {
    var p := s.peers[n];
    assert NodeInv(s, n);
    assert Ordered(s, t0, p.term);
    assert Agree(p.log, s.lead[t0].log, i);
    if p.term !in p.acc {
      assert p.log[i-1] == s.lead[p.term].log[i-1];
      assert Matches(p.log, s.lead[p.term].log, i);
    }
  }

  lemma AcceptHolds(s: State, s': State, n: nat, prev: nat, last: nat)
    requires Inv(s) && n < |s.peers| && Acceptable(s, n, prev, last)
    requires s' == Accepted(s, n, prev, last) && Evolves(s, s')
    ensures Holds(s', n) && Guarded(s', n)
  {
    var p, p' := s.peers[n], s'.peers[n];
    forall t, i | t in p'.acc && t in s'.lead && s'.lead[t].base < i <= p'.acc[t].high
      ensures Agree(p'.log, s'.lead[t].log, i) || Dead(s', t, i)
      ensures t < p.term ==> i <= p'.acc[p.term].low || Dead(s', t, i)
    {
      if t != p.term {
        assert t in p.acc && p'.acc[t] == p.acc[t];
        assert t < p.term by { assert NodeInv(s, n); }
        if Dead(s, t, i) { DeadStays(s, s', t, i); }
        else { FirstAcceptAbove(s, n, prev, last, t, i); }
      }
    }
  }

  lemma PrefixSound(s: State, log: Log, k: nat)
    requires Sound(s, log) && k <= |log|
    ensures Sound(s, log[..k])
  {
    forall j | 0 <= j < k ensures Anchored(s, log[..k], j) { assert Anchored(s, log, j); }
  }

  lemma AcceptPeer(s: State, s': State, n: nat, prev: nat, last: nat)
    requires n < |s.peers| && PeerOk(s, n) && Acceptable(s, n, prev, last) && ReignOk(s, s.peers[n].term)
    requires s.peers[n].commit <= |s.lead[s.peers[n].term].log|
    requires s' == Accepted(s, n, prev, last) && Evolves(s, s')
    ensures PeerOk(s', n)
  {
    var p, p' := s.peers[n], s'.peers[n];
    var t := p.term;
    PrefixSound(s, s.lead[t].log, Max(last, p.commit));
    SoundStays(s, s', p'.log);
  }

  lemma AcceptCommit(s: State, s': State, n: nat, prev: nat, last: nat)
    requires n < |s.peers| && CommitOk(s, n) && s.peers[n].term in s.lead
    requires Agree(s.peers[n].log, s.lead[s.peers[n].term].log, s.peers[n].commit)
    requires s' == Accepted(s, n, prev, last) && Evolves(s, s')
    ensures CommitOk(s', n)
  {
    var p, p' := s.peers[n], s'.peers[n];
    assert Known(s, p.term, p'.log, p.commit) by {
      if p.commit > 0 {
        var c :| KnownBy(s, c, p.term, p.log, p.commit);
        assert KnownBy(s, c, p.term, p'.log, p.commit);
      }
    }
    KnownStays(s, s', p.term, p.term, p'.log, p.commit);
  }

  lemma AcceptEvolves(s: State, n: nat, prev: nat, last: nat)
    requires n < |s.peers| && PeerOk(s, n) && Acceptable(s, n, prev, last)
    ensures Evolves(s, Accepted(s, n, prev, last))
  {
    PeerStep(s, n, Accepted(s, n, prev, last).peers[n]);
  }

  /** A node stores what the leader of its term sent it. */
  lemma Accept(s: State, n: nat, prev: nat, last: nat) returns (s': State)
    requires Inv(s) && n < |s.peers| && Acceptable(s, n, prev, last)
    ensures s' == Accepted(s, n, prev, last)
    ensures Inv(s') && Evolves(s, s')
    ensures Max(last, s.peers[n].commit) <= |s.lead[s.peers[n].term].log|
  {
    assert NodeInv(s, n);
    s' := Accepted(s, n, prev, last);
    AcceptEvolves(s, n, prev, last);
    AcceptHolds(s, s', n, prev, last);
    KnownInLead(s, s.peers[n].term, s.peers[n].log, s.peers[n].commit);
    assert ReignOk(s, s.peers[n].term);
    AcceptPeer(s, s', n, prev, last);
    AcceptCommit(s, s', n, prev, last);
    VotesStay(s, s', n);
    CandidatesStay(s, s', n);
    OneNodeStep(s, s', n);
  }

  /** A leader learns that node n holds the entries up to last. */
  lemma Confirm(s: State, n: nat, t: nat, last: nat) returns (s': State)
    requires Inv(s) && n < |s.peers| && t in s.peers[n].acc
    requires s.peers[n].acc[t].low <= last <= s.peers[n].acc[t].high
    ensures var p := s.peers[n];
            s' == SetPeer(s, n, p.(acc := p.acc[t := Acc(last, p.acc[t].high)]))
    ensures Inv(s') && Evolves(s, s')
  {
    var p := s.peers[n];
    var p' := p.(acc := p.acc[t := Acc(last, p.acc[t].high)]);
    s' := SetPeer(s, n, p');
    assert NodeInv(s, n);
    PeerStep(s, n, p');
    NodeStays(s, s', n);
    OneNodeStep(s, s', n);
  }

  /** A leader finds entry i of its term on a majority. */
  lemma Choose(s: State, t: nat, i: nat, q: set<nat>) returns (s': State)
    requires Inv(s) && t in s.lead && s.lead[t].base < i <= |s.lead[t].log| && ChosenBy(s, Commit(t, i), q)
    ensures s' == s.(commits := s.commits + {Commit(t, i)})
    ensures Inv(s') && Evolves(s, s')
  {
    s' := s.(commits := s.commits + {Commit(t, i)});
    assert ReignOk(s, t);
    var n := s.lead[t].owner;
    forall t1 | t1 in s.lead ensures ReignEvolves(s.lead[t1], s.lead[t1]) { ReignReflexive(s.lead[t1]); }
    forall m | 0 <= m < |s.peers| ensures NodeInv(s', m) {
      assert NodeInv(s, m);
      NodeStays(s, s', m);
    }
    forall t1 | t1 in s'.lead ensures ReignOk(s', t1) { ReignStays(s, s', t1); }
    forall t0, t1 | t0 in s'.lead && t1 in s'.lead && t0 < t1 ensures Ordered(s', t0, t1) {
      assert Ordered(s, t0, t1) && ReignOk(s, t1);
      OrderedStays(s, s', t0, t1);
    }
    assert ChosenBy(s', Commit(t, i), q);
    forall c | c in s'.commits ensures Chosen(s', c) {
      if c in s.commits { ChosenStays(s, s', c); }
    }
  }

  /** A node's commit index moves to k; a restart moves it to 0. */
  lemma Learn(s: State, n: nat, k: nat) returns (s': State)
    requires Inv(s) && n < |s.peers| && Known(s, s.peers[n].term, s.peers[n].log, k)
    ensures s' == SetPeer(s, n, s.peers[n].(commit := k))
    ensures Inv(s') && Evolves(s, s')
  {
    var p := s.peers[n];
    var p' := p.(commit := k);
    s' := SetPeer(s, n, p');
    assert NodeInv(s, n);
    PeerStep(s, n, p');
    PeerStays(s, s', n);
    HoldsStays(s, s', n);
    GuardedStays(s, s', n);
    VotesStay(s, s', n);
    CandidatesStay(s, s', n);
    KnownStays(s, s', p.term, p.term, p.log, k);
    OneNodeStep(s, s', n);
  }
}
