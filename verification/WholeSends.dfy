/** Leaders that always send their whole suffix, as those of the Raft program do: a follower's log only
    grows in a term once it has accepted in it. */
module WholeSends {
  import opened Entries
  import opened Replica
  import opened Cluster
  import opened Consensus
  import opened Coupling
  import opened Metamorphosis
  import opened Moves
  import opened CommitBounds
  import opened Safety

  predicate SendsWhole<V>(s: World<V>, a: Action<V>) {
    a.Send? && a.node < |s.nodes| ==> a.last == |s.nodes[a.node].log| + |s.nodes[a.node].pending|
  }

  /** A node that has accepted in term t holds a part of its leader's log, no longer than the bound. */
  ghost predicate PartBy(s: Net, h: State, f: nat, t: nat, bound: nat) {
    Accepting(s, h, f, t) ==>
      |s.nodes[f].log| <= bound && t in h.lead && Agree(s.nodes[f].log, h.lead[t].log, |s.nodes[f].log|)
  }

  /** A call on its way reaches at least as far as what its follower holds. */
  ghost predicate RpcLong(s: Net, h: State, link: Link)
    requires link in s.rpcs
  {
    s.rpcs[link].Sent? ==>
      PartBy(s, h, link.follower, link.term, s.rpcs[link].request.prevIndex + |s.rpcs[link].request.entries|)
  }

  ghost predicate LeaderLong(s: Net, h: State, l: nat)
    requires l < |s.nodes|
  {
    s.nodes[l].role == Leader ==>
      forall f: nat {:trigger PartBy(s, h, f, s.nodes[l].term, |FullLog(s.nodes[l])|)} ::
        f != l ==> PartBy(s, h, f, s.nodes[l].term, |FullLog(s.nodes[l])|)
  }

  ghost predicate Long(s: Net, h: State) {
    (forall link {:trigger RpcLong(s, h, link)} :: link in s.rpcs ==> RpcLong(s, h, link)) &&
    (forall l {:trigger LeaderLong(s, h, l)} :: 0 <= l < |s.nodes| ==> LeaderLong(s, h, l))
  }

  // ---------------------------------------------------------------- followers

  /** What a follower holds stays, if it does not accept. */
  lemma PartStays(s: Net, s': Net, h: State, h': State, f: nat, t: nat, bound: nat, bound': nat)
    requires Tracked(s, s', h, h') && f < |s.nodes| && NodeMoves(s, s', f) && PartBy(s, h, f, t, bound)
    requires bound <= bound' && t in h'.lead && h'.lead[t].owner != f
    requires !exists link :: Accepts(s, s', link) && link.follower == f && link.term == t
    ensures PartBy(s', h', f, t, bound')
  {
    if Accepting(s', h', f, t) {
      NotLeading(s', h', f, t);
      AcceptTerms(s, s', h);
      StillAccepting(s, s', h, h', f);
      assert ReignEvolves(h.lead[t], h'.lead[t]);
    }
  }

  lemma CommitWithin(s: Net, h: State, link: Link, r: AppendRequest<Value>)
    requires Inv(h) && link.follower < |s.nodes| == |h.peers| && RpcOk(h, link, Sent(r))
    requires SameNode(s.nodes[link.follower], h.peers[link.follower]) && s.nodes[link.follower].term <= link.term
    requires PartBy(s, h, link.follower, link.term, r.prevIndex + |r.entries|)
    ensures s.nodes[link.follower].commit <= r.prevIndex + |r.entries|
  {
    assert NodeInv(h, link.follower);
    if link.term !in h.peers[link.follower].acc { FirstAboveCommit(h, link, r, s.nodes[link.follower]); }
  }

  /** What an accepting follower holds afterwards: the leader's log up to the end of the request. */
  lemma PartAccepted(s: Net, s': Net, h: State, link: Link)
    requires Inv(h) && NodesOk(s, h) && RpcsOk(s, h) && Accepts(s, s', link) && RpcLong(s, h, link)
    ensures var r := s.rpcs[link].request; var end := r.prevIndex + |r.entries|;
            link.term in h.lead && end <= |h.lead[link.term].log| &&
            s'.nodes[link.follower].log == h.lead[link.term].log[..end]
  {
    AcceptedNode(s, s', link);
    assert RpcOk(h, link, s.rpcs[link]) && NodeOk(h, link.follower, s.nodes[link.follower]);
    CommitWithin(s, h, link, s.rpcs[link].request);
    AcceptedPrefix(s, s', h, link);
  }

  lemma PartGrown(s: Net, s': Net, h: State, h': State, link: Link, bound: nat)
    requires Tracked(s, s', h, h') && Accepts(s, s', link) && RpcLong(s, h, link)
    requires s.rpcs[link].request.prevIndex + |s.rpcs[link].request.entries| <= bound
    ensures PartBy(s', h', link.follower, link.term, bound)
  {
    PartAccepted(s, s', h, link);
    assert ReignEvolves(h.lead[link.term], h'.lead[link.term]);
  }

  // ---------------------------------------------------------------- calls and leaders

  /** A call that has not arrived has not arrived before. */
  lemma StillSent<V>(s: World<V>, a: Action<V>, strip: V -> V, link: Link)
    requires Possible(s, a) && link in s.rpcs && link in After(s, a, strip).rpcs && After(s, a, strip).rpcs[link].Sent?
    ensures s.rpcs[link].Sent? && !Accepts(s, After(s, a, strip), link)
  {}

  lemma RpcLongOld(s: Net, s': Net, h: State, h': State, link: Link)
    requires Tracked(s, s', h, h') && Long(s, h) && link in s.rpcs && link in s'.rpcs && link.follower < |s.nodes|
    requires s'.rpcs[link].request == s.rpcs[link].request && s.rpcs[link].Sent? && !Accepts(s, s', link)
    requires NodeMoves(s, s', link.follower)
    ensures RpcLong(s', h', link)
  {
    var r := s.rpcs[link].request;
    assert RpcLong(s, h, link) && RpcOk(h', link, s'.rpcs[link]);
    forall l ensures !(Accepts(s, s', l) && l.follower == link.follower && l.term == link.term) {
      if Accepts(s, s', l) && l.follower == link.follower && l.term == link.term { SameLink(s, h, l, link); }
    }
    PartStays(s, s', h, h', link.follower, link.term, r.prevIndex + |r.entries|, r.prevIndex + |r.entries|);
  }

  lemma RpcLongNew(s: Net, s': Net, h: State, h': State, link: Link)
    requires Tracked(s, s', h, h') && Long(s, h) && link in s'.rpcs && s'.nodes == s.nodes
    requires link.leader < |s.nodes| && s.nodes[link.leader].role == Leader && s.nodes[link.leader].term == link.term
    requires s'.rpcs[link].request.prevIndex + |s'.rpcs[link].request.entries| == |FullLog(s.nodes[link.leader])|
    requires forall l :: !Accepts(s, s', l)
    ensures RpcLong(s', h', link)
  {
    var bound := |FullLog(s.nodes[link.leader])|;
    assert RpcOk(h', link, s'.rpcs[link]);
    assert LeaderLong(s, h, link.leader);
    assert PartBy(s, h, link.follower, link.term, bound);
    PartStays(s, s', h, h', link.follower, link.term, bound, bound);
  }

  /** A leader's log does not shrink while it leads. */
  lemma FullGrows(s: Net, s': Net, h: State, h': State, l: nat)
    requires Tracked(s, s', h, h') && l < |s.nodes| && s.nodes[l].role == Leader && s'.nodes[l].role == Leader
    requires s'.nodes[l].term == s.nodes[l].term
    ensures s.nodes[l].term in h.lead
    ensures |FullLog(s.nodes[l])| == |h.lead[s.nodes[l].term].log| <= |FullLog(s'.nodes[l])|
  {
    assert NodeOk(h, l, s.nodes[l]) && NodeOk(h', l, s'.nodes[l]);
    assert ReignEvolves(h.lead[s.nodes[l].term], h'.lead[s.nodes[l].term]);
  }

  lemma LeaderLongAt(s: Net, s': Net, h: State, h': State, l: nat, f: nat)
    requires Tracked(s, s', h, h') && Long(s, h) && l < |s.nodes| && f < |s.nodes| && f != l
    requires NodeMoves(s, s', l) && NodeMoves(s, s', f)
    requires s'.nodes[l].role == Leader && s'.nodes[l].term in h.lead
    ensures PartBy(s', h', f, s'.nodes[l].term, |FullLog(s'.nodes[l])|)
  {
    var t := s'.nodes[l].term;
    LedOn(s, s', h, h', l);
    FullGrows(s, s', h, h', l);
    assert LeaderLong(s, h, l);
    assert PartBy(s, h, f, t, |FullLog(s.nodes[l])|);
    if link :| Accepts(s, s', link) && link.follower == f && link.term == t {
      assert RpcLong(s, h, link) && RpcOk(h, link, s.rpcs[link]);
      PartGrown(s, s', h, h', link, |FullLog(s'.nodes[l])|);
    } else {
      PartStays(s, s', h, h', f, t, |FullLog(s.nodes[l])|, |FullLog(s'.nodes[l])|);
    }
  }

  lemma LeaderLongStays(s: Net, s': Net, h: State, h': State, l: nat)
    requires Tracked(s, s', h, h') && Long(s, h) && l < |s.nodes| && s'.nodes[l].role == Leader
    requires forall i :: 0 <= i < |s.nodes| ==> NodeMoves(s, s', i)
    ensures LeaderLong(s', h', l)
  {
    var t := s'.nodes[l].term;
    assert NodeOk(h', l, s'.nodes[l]);
    forall f: nat | f != l ensures PartBy(s', h', f, t, |FullLog(s'.nodes[l])|) {
      if f < |s.nodes| {
        if t in h.lead { LeaderLongAt(s, s', h, h', l, f); } else { FreshTerm(s, s', h, h', f, t); }
      }
    }
  }

  // ---------------------------------------------------------------- runs

  lemma WholeStep(s: Net, a: Action<Value>)
    requires Enabled(s, a) && SendsWhole(s, a)
    ensures Possible(s, a) && After(s, a, Same) == Next(s, a)
  {
    if a.Send? { ShippedWhole(s, a.node, a.follower, a.last); }
  }

  lemma LongStep(s: Net, a: Action<Value>, h: State, h': State)
    requires Possible(s, a) && SendsWhole(s, a) && Tracked(s, After(s, a, Same), h, h') && Long(s, h)
    ensures Long(After(s, a, Same), h')
  {
    var s' := After(s, a, Same);
    forall i | 0 <= i < |s.nodes| ensures NodeMoves(s, s', i) { EveryMove(s, a, Same, i); }
    forall link | link in s'.rpcs ensures RpcLong(s', h', link) {
      RpcMoves(s, a, Same, link);
      assert RpcOk(h', link, s'.rpcs[link]);
      if link in s.rpcs && s'.rpcs[link].request == s.rpcs[link].request {
        if s'.rpcs[link].Sent? {
          StillSent(s, a, Same, link);
          RpcLongOld(s, s', h, h', link);
        }
      } else {
        NothingAccepted(s, a.node, a.follower, a.last);
        RpcLongNew(s, s', h, h', link);
      }
    }
    forall l | 0 <= l < |s'.nodes| ensures LeaderLong(s', h', l) {
      if s'.nodes[l].role == Leader { LeaderLongStays(s, s', h, h', l); }
    }
  }

  lemma {:induction false} LongRun(size: nat, worlds: seq<Net>, actions: seq<Action<Value>>, hs: seq<State>, i: nat)
    requires IsRun(size, worlds, actions) && IsHistory(worlds, hs) && i < |worlds|
    requires forall k :: 0 <= k < |actions| ==> SendsWhole(worlds[k], actions[k])
    ensures Long(worlds[i], hs[i])
    decreases i
  {
    if i > 0 {
      var k := i - 1;
      LongRun(size, worlds, actions, hs, k);
      assert Enabled(worlds[k], actions[k]) && worlds[k + 1] == Next(worlds[k], actions[k]);
      assert SendsWhole(worlds[k], actions[k]);
      WholeStep(worlds[k], actions[k]);
      assert Inv(hs[k]) && Inv(hs[i]) && Evolves(hs[k], hs[i]) && Grows(worlds[k], worlds[k + 1], hs[k], hs[k + 1]);
      LongStep(worlds[k], actions[k], hs[k], hs[i]);
    }
  }

  lemma Acknowledged(s: Net, s': Net, h': State, link: Link)
    requires RpcsOk(s', h') && Accepts(s, s', link)
    ensures link.follower < |h'.peers| && link.term in h'.peers[link.follower].acc
  {
    AcceptedNode(s, s', link);
    assert RpcOk(h', link, s'.rpcs[link]);
  }

  /** Who accepted a request of a term has acknowledged in it ever since. */
  lemma HasAccepted(worlds: seq<Net>, hs: seq<State>, k: nat, i: nat, f: nat, t: nat)
    requires IsHistory(worlds, hs) && k < i < |worlds| && AcceptedAt(worlds, k, f, t)
    ensures f < |hs[i].peers| && t in hs[i].peers[f].acc
  {
    assert Inv(hs[k + 1]) && Evolves(hs[k + 1], hs[i]);
    var link :| Accepts(worlds[k], worlds[k + 1], link) && link.follower == f && link.term == t;
    Acknowledged(worlds[k], worlds[k + 1], hs[k + 1], link);
    assert PeerEvolves(hs[k + 1].peers[f], hs[i].peers[f]);
  }

  lemma ExtendsAt(s: Net, s': Net, h: State, link: Link)
    requires Inv(h) && NodesOk(s, h) && RpcsOk(s, h) && Long(s, h) && Accepts(s, s', link)
    requires link.follower < |h.peers| && link.term in h.peers[link.follower].acc
    ensures link.follower < |s'.nodes| && s.nodes[link.follower].log <= s'.nodes[link.follower].log
  {
    AcceptedNode(s, s', link);
    assert RpcLong(s, h, link) && RpcOk(h, link, s.rpcs[link]);
    assert NodeOk(h, link.follower, s.nodes[link.follower]) && NodeInv(h, link.follower);
    PartAccepted(s, s', h, link);
    var log, lead := s.nodes[link.follower].log, h.lead[link.term].log;
    AgreePrefix(log, lead, |log|);
    assert log == log[..|log|];
  }

  /** When leaders send their whole suffix, every request of a term that a follower accepts after the
      first one leaves all that the follower holds in place, committed or not. */
  lemma AcceptExtends(size: nat, worlds: seq<Net>, actions: seq<Action<Value>>, k: nat, i: nat, link: Link)
    requires IsRun(size, worlds, actions) && forall j :: 0 <= j < |actions| ==> SendsWhole(worlds[j], actions[j])
    requires k < i && i + 1 < |worlds| && Accepts(worlds[i], worlds[i + 1], link)
    requires AcceptedAt(worlds, k, link.follower, link.term)
    ensures worlds[i].nodes[link.follower].log <= worlds[i + 1].nodes[link.follower].log
  {
    var hs := RunHistory(size, worlds, actions);
    assert Inv(hs[i]);
    HasAccepted(worlds, hs, k, i, link.follower, link.term);
    LongRun(size, worlds, actions, hs, i);
    ExtendsAt(worlds[i], worlds[i + 1], hs[i], link);
  }
}
