/** Every step keeps the payload invariants. */
module QueueSteps {
  import opened Entries
  import opened Replica
  import opened Cluster
  import opened Mapping
  import opened Consensus
  import opened Coupling
  import opened Metamorphosis
  import opened Moves
  import opened CommitBounds
  import opened QueueInv

  // ---------------------------------------------------------------- durability

  /** A node that acknowledged a committed entry never accepts a request that starts below it. */
  lemma NeverBelow(h: State, link: Link, r: AppendRequest<Value>, n: Node<Value>, c: Commit)
    requires Inv(h) && RpcOk(h, link, Sent(r)) && SameNode(n, h.peers[link.follower]) && n.term <= link.term
    requires c in h.commits && c.term in h.peers[link.follower].acc
    requires c.index <= h.peers[link.follower].acc[c.term].low
    ensures c.index <= r.prevIndex
  {
    var f, t := link.follower, link.term;
    var p := h.peers[f];
    assert NodeInv(h, f) && Chosen(h, c);
    ChosenAlive(h, c);
    if c.term < t {
      Completeness(h, c, t);
      if t !in p.acc && n.term == t {
        assert Agree(p.log, h.lead[c.term].log, c.index);
        assert Matches(p.log, h.lead[t].log, c.index);
      }
    }
  }

  lemma PayloadKept(s: Queue, s': Queue, h: State, h': State, n: nat, j: nat, c: Commit)
    requires Tracked(Core(s), Core(s'), h, h') && n < |s.nodes| == |s'.nodes| && NodeMoves(s, s', n)
    requires c in h.commits && 1 <= j <= c.index && c.term in h.peers[n].acc && c.index <= h.peers[n].acc[c.term].low
    requires j <= |s.nodes[n].log| && Full(s.nodes[n].log[j - 1].value)
    ensures j <= |s'.nodes[n].log| && Full(s'.nodes[n].log[j - 1].value)
  {
    if link :| Accepts(s, s', link) && link.follower == n {
      AcceptedNode(s, s', link);
      StartsAbove(s, h, link, c);
      StoredBelow(s.nodes[n].log, s.nodes[n].commit, s.rpcs[link].request, j);
    }
  }

  lemma StartsAbove(s: Queue, h: State, link: Link, c: Commit)
    requires Inv(h) && NodesOk(Core(s), h) && RpcsOk(Core(s), h) && CanDeliver(s, link)
    requires s.nodes[link.follower].term <= s.rpcs[link].request.term
    requires c in h.commits && c.term in h.peers[link.follower].acc && c.index <= h.peers[link.follower].acc[c.term].low
    ensures c.index <= s.rpcs[link].request.prevIndex && s.nodes[link.follower].commit <= |s.nodes[link.follower].log|
  {
    assert RpcOk(h, link, Core(s).rpcs[link]) && NodeOk(h, link.follower, Core(s).nodes[link.follower]);
    NeverBelow(h, link, Core(s).rpcs[link].request, Core(s).nodes[link.follower], c);
  }

  lemma StoredBelow(log: TaggedLog, commit: nat, r: AppendRequest<Tagged>, j: nat)
    requires 1 <= j <= r.prevIndex <= |log| && commit <= |log|
    ensures j <= |Stored(log, commit, r)| && Stored(log, commit, r)[j - 1] == log[j - 1]
  {}

  lemma DurableStays(s: Queue, s': Queue, h: State, h': State, j: nat)
    requires Tracked(Core(s), Core(s'), h, h') && |s'.nodes| == |s.nodes| == |h'.peers| && j >= 1 && Durable(s, h, j)
    requires forall i :: 0 <= i < |s.nodes| ==> NodeMoves(s, s', i)
    ensures Durable(s', h', j)
  {
    var c, q :| DurableBy(s, h, j, c, q);
    forall n | n in q
      ensures c.term in h'.peers[n].acc && c.index <= h'.peers[n].acc[c.term].low
      ensures j <= |s'.nodes[n].log| && Full(s'.nodes[n].log[j - 1].value)
    {
      assert PeerEvolves(h.peers[n], h'.peers[n]);
      PayloadKept(s, s', h, h', n, j, c);
    }
    assert DurableBy(s', h', j, c, q);
  }

  /** A newly committed entry has its payload wherever it was counted. */
  lemma DurableNew(s: Queue, h: State, commits: set<Commit>, c: Commit, j: nat)
    requires Inv(h) && NodesOk(Core(s), h) && c in h.commits && 1 <= j <= c.index
    requires forall i :: 0 <= i < |s.nodes| ==> LogSettled(h, commits, s.nodes[i].log)
    requires forall d :: d in commits ==> d.index < j
    ensures Durable(s, h, j)
  {
    assert Chosen(h, c);
    ChosenAlive(h, c);
    var q :| ChosenBy(h, c, q);
    forall n | n in q ensures j <= |s.nodes[n].log| && Full(s.nodes[n].log[j - 1].value) {
      assert NodeInv(h, n) && NodeOk(h, n, Core(s).nodes[n]);
      assert Agree(h.peers[n].log, h.lead[c.term].log, c.index);
      assert LogSettled(h, commits, s.nodes[n].log);
    }
    assert DurableBy(s, h, j, c, q);
  }

  lemma DurableStep(md5: string -> Hash, s: Queue, a: Action<Tagged>, s': Queue, h: State, h': State)
    requires TaggedStep(md5, s, a, s') && Tracked(Core(s), Core(s'), h, h') && AllDurable(s, h)
    requires Light(md5, s, h, h.commits)
    ensures AllDurable(s', h')
  {
    forall i | 0 <= i < |s.nodes| ensures NodeMoves(s, s', i) { EveryMove(s, a, Strip, i); }
    forall i | 0 <= i < |s'.nodes| ensures LogSettled(h', h.commits, s'.nodes[i].log) {
      SettledStep(md5, s, s', h, h', i);
    }
    forall c, j | DueBy(h', c, j) ensures Durable(s', h', j) {
      if d :| DueBy(h, d, j) {
        DurableStays(s, s', h, h', j);
      } else {
        forall d | d in h.commits ensures d.index < j { assert !DueBy(h, d, j); }
        DurableNew(s', h', h.commits, c, j);
      }
    }
  }

  // ---------------------------------------------------------------- all of it

  lemma LightGrows(md5: string -> Hash, s: Queue, h: State, commits: set<Commit>, commits': set<Commit>)
    requires Light(md5, s, h, commits) && commits <= commits'
    ensures Light(md5, s, h, commits')
  {
    forall i | 0 <= i < |s.nodes| ensures NodeLight(md5, s, h, commits', i) {
      assert NodeLight(md5, s, h, commits, i);
      forall k | 0 <= k < |s.nodes[i].log| && !Full(s.nodes[i].log[k].value)
        ensures Settled(h, commits', Ids(s.nodes[i].log), k + 1)
      {
        assert Settled(h, commits, Ids(s.nodes[i].log), k + 1);
      }
    }
    forall l | l in s.rpcs ensures CallLight(md5, s, h, commits', l) {
      assert CallLight(md5, s, h, commits, l);
      var r := s.rpcs[l].request;
      forall k | 0 <= k < |r.entries| && !Full(r.entries[k].value)
        ensures Settled(h, commits', h.lead[l.term].log, r.prevIndex + k + 1)
      {
        assert Settled(h, commits, h.lead[l.term].log, r.prevIndex + k + 1);
      }
    }
  }

  lemma LightStep(md5: string -> Hash, s: Queue, a: Action<Tagged>, s': Queue, h: State, h': State)
    requires TaggedStep(md5, s, a, s') && Tracked(Core(s), Core(s'), h, h') && Light(md5, s, h, h.commits)
    ensures Light(md5, s', h', h.commits)
  {
    forall l | l in s.rpcs ensures RpcForms(md5, s.rpcs[l].request) { assert CallLight(md5, s, h, h.commits, l); }
    forall i | 0 <= i < |s'.nodes| ensures NodeLight(md5, s', h', h.commits, i) {
      assert NodeLight(md5, s, h, h.commits, i);
      EveryMove(s, a, Strip, i);
      FormsStep(md5, s, a, s', i);
      SettledStep(md5, s, s', h, h', i);
      TailStep(md5, s, a, s', h, h', i);
    }
    forall l | l in s'.rpcs ensures CallLight(md5, s', h', h.commits, l) { CallStep(md5, s, a, s', h, h', l); }
  }

  lemma QueueStepKeeps(md5: string -> Hash, s: Queue, a: Action<Tagged>, s': Queue, h: State, h': State)
    requires TaggedStep(md5, s, a, s') && Tracked(Core(s), Core(s'), h, h') && QueueOk(md5, s, h)
    ensures QueueOk(md5, s', h')
  {
    LightStep(md5, s, a, s', h, h');
    LightGrows(md5, s', h', h.commits, h'.commits);
    DurableStep(md5, s, a, s', h, h');
    CoreBounds(s, a, s', h, h');
  }

  lemma CoreBounds(s: Queue, a: Action<Tagged>, s': Queue, h: State, h': State)
    requires Possible(s, a) && s' == After(s, a, Strip) && Tracked(Core(s), Core(s'), h, h') && Bounded(Core(s), h)
    ensures Bounded(Core(s'), h')
  {
    MapAfter(Identity, s, a, Strip, Same);
    BoundsStep(Core(s), MapAction(Identity, a), h, h');
  }
}
