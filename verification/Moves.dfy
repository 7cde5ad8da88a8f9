/** What a step can do to one node and to one call, whichever step it is. */
module Moves {
  import opened Entries
  import opened Replica
  import opened Cluster
  import opened Metamorphosis
  import ReplicationSteps

  /** The node keeps its log; it may have restarted, changed term, or just been elected. */
  ghost predicate Rests<V>(n: Node<V>, n': Node<V>)
  {
    n'.log == n.log && n.term <= n'.term && (n'.commit == n.commit || n'.commit == 0) &&
    (n'.role == Leader ==> n.role != Follower && n'.commit == n.commit && n'.term == n.term)
  }

  /** The node leads on; it may have saved its pending entries and committed. */
  ghost predicate LeadsOn<V>(n: Node<V>, n': Node<V>) {
    n.role == Leader && n'.role == Leader && n'.term == n.term && n.commit <= n'.commit &&
    (n'.log == n.log || n'.log == n.log + n.pending)
  }

  ghost predicate NodeMoves<V(!new)>(s: World<V>, s': World<V>, i: nat)
    requires i < |s.nodes| == |s'.nodes|
  {
    Rests(s.nodes[i], s'.nodes[i]) || LeadsOn(s.nodes[i], s'.nodes[i]) ||
    exists link :: Accepts(s, s', link) && link.follower == i
  }

  lemma CommitGrows<V>(n: Node<V>, size: nat)
    ensures UpdateCommitIndex(n, size).commit >= n.commit
  {
    ReplicationSteps.ScanFinds(n.matchIndex, n.commit, n.start, |n.log|, Majority(size));
  }

  lemma DeliveredMoves<V(!new)>(s: World<V>, link: Link, i: nat)
    requires CanDeliver(s, link) && i < |s.nodes|
    ensures NodeMoves(s, Delivered(s, link), i)
  {
    if i == link.follower && Delivered(s, link).rpcs[link].reply.success {
      assert Accepts(s, Delivered(s, link), link);
    }
  }

  lemma SavedMoves<V(!new)>(s: World<V>, j: nat, i: nat)
    requires Leads(s, j) && i < |s.nodes|
    ensures NodeMoves(s, Written(s, j), i)
  {
    CommitGrows(Saved(s.nodes[j], j), |s.nodes|);
  }

  lemma ReturnedMoves<V(!new)>(s: World<V>, link: Link, i: nat)
    requires CanReturn(s, link) && i < |s.nodes|
    ensures NodeMoves(s, Returned(s, link), i)
  {
    CommitGrows(Confirmed(s.nodes[link.leader], link.follower, s.rpcs[link].request), |s.nodes|);
  }

  lemma EveryMove<V(!new)>(s: World<V>, a: Action<V>, strip: V -> V, i: nat)
    requires Possible(s, a) && i < |s.nodes|
    ensures |After(s, a, strip).nodes| == |s.nodes| && NodeMoves(s, After(s, a, strip), i)
  {
    match a
    case Write(j) => SavedMoves(s, j, i);
    case Return(link) => ReturnedMoves(s, link, i);
    case Deliver(link) => DeliveredMoves(s, link, i);
    case _ =>
  }

  /** What an accepting follower becomes. */
  lemma AcceptedNode<V>(s: World<V>, s': World<V>, link: Link)
    requires Accepts(s, s', link)
    ensures var n, n', r := s.nodes[link.follower], s'.nodes[link.follower], s.rpcs[link].request;
            && |s'.nodes| == |s.nodes| && n.term <= r.term == n'.term && n'.role == Follower
            && LogMatches(n.log, r) && n'.log == Stored(n.log, n.commit, r)
            && n'.commit == Max(n.commit, Min(r.leaderCommit, |n'.log|))
            && s'.rpcs == s.rpcs[link := Answered(r, s'.rpcs[link].reply)]
    ensures forall j :: 0 <= j < |s.nodes| && j != link.follower ==> s'.nodes[j] == s.nodes[j]
  {}

  /** A call is an old one, or the one just sent. */
  lemma RpcMoves<V>(s: World<V>, a: Action<V>, strip: V -> V, link: Link)
    requires Possible(s, a) && link in After(s, a, strip).rpcs
    ensures var s' := After(s, a, strip);
            (link in s.rpcs && s'.rpcs[link].request == s.rpcs[link].request) ||
            (a.Send? && link == Link(a.node, s.nodes[a.node].term, a.follower) && s'.nodes == s.nodes &&
             s'.rpcs[link].request == LightRequest(s.nodes[a.node], a.node,
                                                   s.nodes[a.node].nextIndex[a.follower], a.last, strip))
  {}

  /** Pending entries are dropped, or one is added by a client call. */
  lemma PendingMoves<V>(s: World<V>, a: Action<V>, strip: V -> V, i: nat)
    requires Possible(s, a) && i < |s.nodes|
    ensures var n, n' := s.nodes[i], After(s, a, strip).nodes[i];
            n'.pending == n.pending || n'.pending == [] ||
            (a.Execute? && n'.pending == n.pending + [Entry(n.term, a.value)])
  {}

  /** Only a delivery answers a call. */
  lemma AnsweredNow<V>(s: World<V>, a: Action<V>, strip: V -> V, link: Link)
    requires Possible(s, a) && link in s.rpcs && s.rpcs[link].Sent?
    requires link in After(s, a, strip).rpcs && After(s, a, strip).rpcs[link].Answered?
    ensures a == Deliver(link)
  {}

  /** A client call keeps its value; a new one has the value of the action. */
  lemma CallMoves<V>(s: World<V>, a: Action<V>, strip: V -> V, k: nat)
    requires Possible(s, a) && k < |After(s, a, strip).calls|
    ensures var c' := After(s, a, strip).calls[k];
            (k < |s.calls| && c'.value == s.calls[k].value) || (a.Execute? && c'.value == a.value)
  {}
}
