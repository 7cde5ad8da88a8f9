/** How far a follower's commit index can run ahead of a request that is on its way to it. */
module CommitBounds {
  import opened Entries
  import opened Replica
  import opened Cluster
  import opened Consensus
  import opened Coupling
  import opened Metamorphosis
  import opened Moves

  /** A step of the cluster with the history on both sides. */
  ghost predicate Tracked(s: Net, s': Net, h: State, h': State) {
    Inv(h) && Coupled(s, h) && Inv(h') && Coupled(s', h') && Evolves(h, h') && Joins(s, s', h, h') &&
    |s'.nodes| == |s.nodes|
  }

  /** Node f has accepted from the leader of its term t. */
  ghost predicate Accepting(s: Net, h: State, f: nat, t: nat) {
    f < |s.nodes| == |h.peers| && s.nodes[f].term == t && t in h.peers[f].acc
  }

  ghost predicate BoundBy(s: Net, h: State, f: nat, t: nat, commit: nat) {
    Accepting(s, h, f, t) ==> s.nodes[f].commit <= Max(h.peers[f].acc[t].low, commit)
  }

  ghost predicate RpcBound(s: Net, h: State, link: Link)
    requires link in s.rpcs
  {
    && BoundBy(s, h, link.follower, link.term, s.rpcs[link].request.leaderCommit)
    && (link.leader < |s.nodes| && s.nodes[link.leader].role == Leader && s.nodes[link.leader].term == link.term ==>
          s.rpcs[link].request.leaderCommit <= s.nodes[link.leader].commit)
  }

  ghost predicate LeaderBound(s: Net, h: State, l: nat)
    requires l < |s.nodes|
  {
    s.nodes[l].role == Leader ==>
      forall f: nat {:trigger BoundBy(s, h, f, s.nodes[l].term, s.nodes[l].commit)} ::
        f != l ==> BoundBy(s, h, f, s.nodes[l].term, s.nodes[l].commit)
  }

  ghost predicate Bounded(s: Net, h: State) {
    (forall link {:trigger RpcBound(s, h, link)} :: link in s.rpcs ==> RpcBound(s, h, link)) &&
    (forall l {:trigger LeaderBound(s, h, l)} :: 0 <= l < |s.nodes| ==> LeaderBound(s, h, l))
  }

  // ---------------------------------------------------------------- the first acceptance

  /** The first request a follower accepts in a term starts above all it has committed. */
  lemma FirstAboveCommit(h: State, link: Link, r: AppendRequest<Value>, n: Node<Value>)
    requires Inv(h) && RpcOk(h, link, Sent(r)) && SameNode(n, h.peers[link.follower])
    requires n.term <= link.term && link.term !in h.peers[link.follower].acc
    ensures n.commit <= r.prevIndex
  {
    var f, t := link.follower, link.term;
    assert NodeInv(h, f) && ReignOk(h, t);
    if n.commit > 0 {
      var c :| KnownBy(h, c, n.term, n.log, n.commit);
      var lead := h.lead[t];
      if c.term < t { Completeness(h, c, t); }
      assert Agree(n.log, lead.log, n.commit);
      assert lead.log[n.commit - 1].term < t && n.commit <= lead.base;
      assert Matches(n.log, lead.log, n.commit);
    }
  }

  // ---------------------------------------------------------------- keeping the bounds

  /** A node that accepts in its current term after a quiet step did so before, with the same or a
      lower bound, or was just elected. */
  lemma StillAccepting(s: Net, s': Net, h: State, h': State, f: nat)
    requires Tracked(s, s', h, h') && f < |s.nodes| && s'.nodes[f].role != Leader
    requires !exists link :: Accepts(s, s', link) && link.follower == f
    requires Accepting(s', h', f, s'.nodes[f].term) && s.nodes[f].term <= s'.nodes[f].term
    ensures Accepting(s, h, f, s.nodes[f].term) && s'.nodes[f].term == s.nodes[f].term
    ensures h.peers[f].acc[s.nodes[f].term].low <= h'.peers[f].acc[s.nodes[f].term].low
  {
    var t := s'.nodes[f].term;
    assert t in h.peers[f].acc;
    assert NodeOk(h, f, s.nodes[f]) && NodeInv(h, f);
    assert PeerEvolves(h.peers[f], h'.peers[f]);
  }

  /** Only the leader of a term leads it. */
  lemma NotLeading(s: Net, h: State, f: nat, t: nat)
    requires NodesOk(s, h) && f < |s.nodes| && t in h.lead && h.lead[t].owner != f
    ensures s.nodes[f].role == Leader ==> s.nodes[f].term != t
  {
    assert NodeOk(h, f, s.nodes[f]);
  }

  lemma AcceptTerms(s: Net, s': Net, h: State)
    requires RpcsOk(s, h)
    ensures forall link :: Accepts(s, s', link) ==>
              s'.nodes[link.follower].term == link.term && s'.nodes[link.follower].role == Follower
  {
    forall link | Accepts(s, s', link)
      ensures s'.nodes[link.follower].term == link.term && s'.nodes[link.follower].role == Follower
    {
      AcceptedNode(s, s', link);
      assert RpcOk(h, link, s.rpcs[link]);
    }
  }

  /** A bound on a follower's commit index survives, if the bound does not shrink. */
  lemma BoundStays(s: Net, s': Net, h: State, h': State, f: nat, t: nat, commit: nat, commit': nat)
    requires Tracked(s, s', h, h') && f < |s.nodes| && NodeMoves(s, s', f) && BoundBy(s, h, f, t, commit)
    requires commit <= commit' && t in h'.lead && h'.lead[t].owner != f
    requires !exists link :: Accepts(s, s', link) && link.follower == f && link.term == t
    ensures BoundBy(s', h', f, t, commit')
  {
    if Accepting(s', h', f, t) {
      NotLeading(s', h', f, t);
      AcceptTerms(s, s', h);
      StillAccepting(s, s', h, h', f);
    }
  }

  /** What an accepting follower commits is bounded by the request it accepts. */
  lemma BoundAccepted(s: Net, s': Net, h: State, h': State, link: Link)
    requires Tracked(s, s', h, h') && Accepts(s, s', link) && RpcBound(s, h, link)
    ensures BoundBy(s', h', link.follower, link.term, s.rpcs[link].request.leaderCommit)
  {
    var f, r := link.follower, s.rpcs[link].request;
    AcceptedNode(s, s', link);
    assert RpcOk(h, link, s.rpcs[link]) && RpcOk(h', link, s'.rpcs[link]);
    assert NodeOk(h, f, s.nodes[f]) && NodeInv(h, f);
    CommitBeforeAccept(s, h, link, r);
    assert s'.nodes[f].commit <= Max(r.prevIndex, r.leaderCommit);
  }

  lemma CommitBeforeAccept(s: Net, h: State, link: Link, r: AppendRequest<Value>)
    requires Inv(h) && link.follower < |s.nodes| == |h.peers| && RpcOk(h, link, Sent(r))
    requires SameNode(s.nodes[link.follower], h.peers[link.follower]) && PeerOk(h, link.follower)
    requires s.nodes[link.follower].term <= link.term
    requires BoundBy(s, h, link.follower, link.term, r.leaderCommit)
    ensures s.nodes[link.follower].commit <= Max(r.prevIndex, r.leaderCommit)
  {
    if link.term !in h.peers[link.follower].acc {
      FirstAboveCommit(h, link, r, s.nodes[link.follower]);
    }
  }

  lemma SameLink(s: Net, h: State, l1: Link, l2: Link)
    requires RpcsOk(s, h) && l1 in s.rpcs && l2 in s.rpcs && l1.follower == l2.follower && l1.term == l2.term
    ensures l1 == l2
  {
    assert RpcOk(h, l1, s.rpcs[l1]) && RpcOk(h, l2, s.rpcs[l2]);
  }

  /** A node leading the term of an existing call led it before. */
  lemma LedBefore(s: Net, s': Net, h: State, h': State, l: nat, t: nat)
    requires Tracked(s, s', h, h') && l < |s.nodes| && NodeMoves(s, s', l) && t in h.lead && h.lead[t].owner == l
    requires s'.nodes[l].role == Leader && s'.nodes[l].term == t
    ensures s.nodes[l].role == Leader && s.nodes[l].term == t && s.nodes[l].commit <= s'.nodes[l].commit
  {
    assert NodeOk(h, l, s.nodes[l]) && NodeOk(h', l, s'.nodes[l]);
    AcceptTerms(s, s', h);
  }

  lemma RpcBoundOld(s: Net, s': Net, h: State, h': State, link: Link)
    requires Tracked(s, s', h, h') && Bounded(s, h) && link in s.rpcs && link in s'.rpcs
    requires s'.rpcs[link].request == s.rpcs[link].request
    requires forall i :: 0 <= i < |s.nodes| ==> NodeMoves(s, s', i)
    ensures RpcBound(s', h', link)
  {
    var commit := s.rpcs[link].request.leaderCommit;
    assert RpcBound(s, h, link) && RpcOk(h, link, s.rpcs[link]) && RpcOk(h', link, s'.rpcs[link]);
    if l :| Accepts(s, s', l) && l.follower == link.follower && l.term == link.term {
      SameLink(s, h, l, link);
      BoundAccepted(s, s', h, h', link);
    } else {
      BoundStays(s, s', h, h', link.follower, link.term, commit, commit);
    }
    if link.leader < |s'.nodes| && s'.nodes[link.leader].role == Leader && s'.nodes[link.leader].term == link.term {
      LedBefore(s, s', h, h', link.leader, link.term);
    }
  }

  lemma LedOn(s: Net, s': Net, h: State, h': State, l: nat)
    requires Tracked(s, s', h, h') && l < |s.nodes| && NodeMoves(s, s', l)
    requires s'.nodes[l].role == Leader && s'.nodes[l].term in h.lead
    ensures s.nodes[l].role == Leader && s.nodes[l].term == s'.nodes[l].term && s.nodes[l].commit <= s'.nodes[l].commit
    ensures s'.nodes[l].term in h'.lead && h.lead[s'.nodes[l].term].owner == h'.lead[s'.nodes[l].term].owner == l
  {
    var t := s'.nodes[l].term;
    assert NodeOk(h', l, s'.nodes[l]);
    assert ReignEvolves(h.lead[t], h'.lead[t]);
    LedBefore(s, s', h, h', l, t);
  }

  lemma BoundOfLeader(s: Net, s': Net, h: State, h': State, l: nat, link: Link)
    requires Tracked(s, s', h, h') && Accepts(s, s', link) && RpcBound(s, h, link) && l < |s.nodes|
    requires link.term in h.lead && h.lead[link.term].owner == l && s.nodes[l].role == Leader
    requires s.nodes[l].term == link.term
    requires s.nodes[l].commit <= s'.nodes[l].commit
    ensures BoundBy(s', h', link.follower, link.term, s'.nodes[l].commit)
  {
    assert RpcOk(h, link, s.rpcs[link]);
    BoundAccepted(s, s', h, h', link);
  }

  lemma LeaderBoundAt(s: Net, s': Net, h: State, h': State, l: nat, f: nat)
    requires Tracked(s, s', h, h') && Bounded(s, h) && l < |s.nodes| && f < |s.nodes| && f != l
    requires NodeMoves(s, s', l) && NodeMoves(s, s', f)
    requires s'.nodes[l].role == Leader && s'.nodes[l].term in h.lead
    ensures BoundBy(s', h', f, s'.nodes[l].term, s'.nodes[l].commit)
  {
    var t := s'.nodes[l].term;
    LedOn(s, s', h, h', l);
    assert LeaderBound(s, h, l);
    assert BoundBy(s, h, f, t, s.nodes[l].commit);
    if link :| Accepts(s, s', link) && link.follower == f && link.term == t {
      assert RpcBound(s, h, link);
      BoundOfLeader(s, s', h, h', l, link);
    } else {
      BoundStays(s, s', h, h', f, t, s.nodes[l].commit, s'.nodes[l].commit);
    }
  }

  lemma LeaderBoundStays(s: Net, s': Net, h: State, h': State, l: nat)
    requires Tracked(s, s', h, h') && Bounded(s, h) && l < |s.nodes| && s'.nodes[l].role == Leader
    requires forall i :: 0 <= i < |s.nodes| ==> NodeMoves(s, s', i)
    ensures LeaderBound(s', h', l)
  {
    var t := s'.nodes[l].term;
    assert NodeOk(h', l, s'.nodes[l]);
    forall f: nat | f != l ensures BoundBy(s', h', f, t, s'.nodes[l].commit) {
      if f < |s.nodes| {
        if t in h.lead { LeaderBoundAt(s, s', h, h', l, f); } else { FreshTerm(s, s', h, h', f, t); }
      }
    }
  }

  /** Nobody but its leader has acknowledged in a term that has just begun. */
  lemma FreshTerm(s: Net, s': Net, h: State, h': State, f: nat, t: nat)
    requires Tracked(s, s', h, h') && f < |s.nodes| && t !in h.lead && t in h'.lead && h'.lead[t].owner != f
    ensures !Accepting(s', h', f, t)
  {
    NotLeading(s', h', f, t);
    assert NodeInv(h, f);
    forall link | Accepts(s, s', link) ensures link.term != t { assert RpcOk(h, link, s.rpcs[link]); }
  }

  lemma RpcBoundNew(s: Net, s': Net, h: State, h': State, link: Link)
    requires Tracked(s, s', h, h') && Bounded(s, h) && link in s'.rpcs && s'.nodes == s.nodes
    requires link.leader < |s.nodes| && s.nodes[link.leader].role == Leader && s.nodes[link.leader].term == link.term
    requires s'.rpcs[link].request.leaderCommit == s.nodes[link.leader].commit
    requires forall l :: !Accepts(s, s', l)
    ensures RpcBound(s', h', link)
  {
    var commit := s.nodes[link.leader].commit;
    assert RpcOk(h', link, s'.rpcs[link]);
    assert LeaderBound(s, h, link.leader);
    assert BoundBy(s, h, link.follower, link.term, commit);
    BoundStays(s, s', h, h', link.follower, link.term, commit, commit);
  }

  lemma NothingAccepted(s: Net, i: nat, f: nat, last: nat)
    requires CanSend(s, i, f, last)
    ensures forall l :: !Accepts(s, Shipped(s, i, f, last, Same), l)
  {
    forall l ensures !Accepts(s, Shipped(s, i, f, last, Same), l) {
      if CanDeliver(s, l) { assert Delivered(s, l).rpcs[l].Answered?; }
    }
  }

  /** Every step keeps the bounds. */
  lemma BoundsStep(s: Net, a: Action<Value>, h: State, h': State)
    requires Possible(s, a) && Tracked(s, After(s, a, Same), h, h') && Bounded(s, h)
    ensures Bounded(After(s, a, Same), h')
  {
    var s' := After(s, a, Same);
    forall i | 0 <= i < |s.nodes| ensures NodeMoves(s, s', i) { EveryMove(s, a, Same, i); }
    forall link | link in s'.rpcs ensures RpcBound(s', h', link) {
      RpcMoves(s, a, Same, link);
      if link in s.rpcs && s'.rpcs[link].request == s.rpcs[link].request {
        RpcBoundOld(s, s', h, h', link);
      } else {
        NothingAccepted(s, a.node, a.follower, a.last);
        RpcBoundNew(s, s', h, h', link);
      }
    }
    forall l | 0 <= l < |s'.nodes| ensures LeaderBound(s', h', l) {
      if s'.nodes[l].role == Leader { LeaderBoundStays(s, s', h, h', l); }
    }
  }
}
