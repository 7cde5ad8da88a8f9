/** What the payloads obey in every reachable state of a Metamorphosis cluster. */
module QueueInv {
  import opened Entries
  import opened Replica
  import opened Cluster
  import opened Mapping
  import opened Consensus
  import opened Coupling
  import opened Metamorphosis
  import opened Moves
  import opened CommitBounds

  type Queue = World<Tagged>
  type TaggedLog = seq<Entry<Tagged>>

  /** The replication protocol underneath: entries seen as identities. */
  function Core(s: Queue): Net { MapWorld(Identity, s) }

  function Ids(log: TaggedLog): Log { MapLog(Identity, log) }

  // ---------------------------------------------------------------- definitions

  /** A copy has the whole text or nothing of it, and the hash is that of the text. */
  predicate Form(md5: string -> Hash, t: Tagged) {
    t.text != "" && t.hash == md5(t.text) && (t.data == "" || t.data == t.text)
  }

  predicate Full(t: Tagged) { t.data == t.text }

  ghost predicate NodeForms(md5: string -> Hash, n: Node<Tagged>) {
    && (forall k :: 0 <= k < |n.log| ==> Form(md5, n.log[k].value))
    && (forall k :: 0 <= k < |n.pending| ==> Form(md5, n.pending[k].value) && Full(n.pending[k].value))
  }

  ghost predicate RpcForms(md5: string -> Hash, r: AppendRequest<Tagged>) {
    forall k :: 0 <= k < |r.entries| ==> Form(md5, r.entries[k].value)
  }

  ghost predicate SettledBy(h: State, c: Commit, log: Log, j: nat) {
    c.term in h.lead && j <= c.index && Agree(log, h.lead[c.term].log, j)
  }

  /** The first j entries of the log are committed by one of the given commits. */
  ghost predicate Settled(h: State, commits: set<Commit>, log: Log, j: nat) {
    exists c :: c in commits && SettledBy(h, c, log, j)
  }

  /** Every copy without payload is a copy of a committed entry. */
  ghost predicate LogSettled(h: State, commits: set<Commit>, log: TaggedLog) {
    forall k :: 0 <= k < |log| && !Full(log[k].value) ==> Settled(h, commits, Ids(log), k + 1)
  }

  ghost predicate RpcSettled(h: State, commits: set<Commit>, t: nat, r: AppendRequest<Tagged>) {
    t in h.lead &&
    forall k :: 0 <= k < |r.entries| && !Full(r.entries[k].value) ==>
      Settled(h, commits, h.lead[t].log, r.prevIndex + k + 1)
  }

  /** A request carries no payload of what its sender knows to be committed. */
  ghost predicate RpcLight(r: AppendRequest<Tagged>) {
    forall k :: 0 <= k < |r.entries| && r.prevIndex + k + 1 <= r.leaderCommit ==> r.entries[k].value.data == ""
  }

  /** What a node committed above the start of its leader's requests came without payload. */
  ghost predicate TailLight(h: State, i: nat, n: Node<Tagged>)
    requires i < |h.peers|
  {
    n.term in h.peers[i].acc ==>
      forall k :: h.peers[i].acc[n.term].low <= k < n.commit && k < |n.log| ==> n.log[k].value.data == ""
  }

  ghost predicate DurableBy(s: Queue, h: State, j: nat, c: Commit, q: set<nat>)
    requires j >= 1
  {
    && c in h.commits && j <= c.index && ChosenBy(h, c, q) && |s.nodes| == |h.peers|
    && forall n :: n in q ==> j <= |s.nodes[n].log| && Full(s.nodes[n].log[j - 1].value)
  }

  /** A majority holds the payload of entry j in its persistent log, and will not lose it. */
  ghost predicate Durable(s: Queue, h: State, j: nat)
    requires j >= 1
  {
    exists c, q :: DurableBy(s, h, j, c, q)
  }

  ghost predicate NodeLight(md5: string -> Hash, s: Queue, h: State, commits: set<Commit>, i: nat)
    requires i < |s.nodes| == |h.peers|
  {
    NodeForms(md5, s.nodes[i]) && LogSettled(h, commits, s.nodes[i].log) && TailLight(h, i, s.nodes[i])
  }

  ghost predicate CallLight(md5: string -> Hash, s: Queue, h: State, commits: set<Commit>, link: Link)
    requires link in s.rpcs
  {
    var r := s.rpcs[link].request;
    RpcForms(md5, r) && RpcSettled(h, commits, link.term, r) && RpcLight(r)
  }

  /** commits are the commits that explain the missing payloads. */
  ghost predicate Light(md5: string -> Hash, s: Queue, h: State, commits: set<Commit>) {
    && |s.nodes| == |h.peers|
    && (forall i {:trigger NodeLight(md5, s, h, commits, i)} :: 0 <= i < |s.nodes| ==> NodeLight(md5, s, h, commits, i))
    && (forall l {:trigger CallLight(md5, s, h, commits, l)} :: l in s.rpcs ==> CallLight(md5, s, h, commits, l))
  }

  ghost predicate AllDurable(s: Queue, h: State) {
    forall c, j {:trigger DueBy(h, c, j)} :: DueBy(h, c, j) ==> Durable(s, h, j)
  }

  ghost predicate DueBy(h: State, c: Commit, j: nat) { c in h.commits && 1 <= j <= c.index }

  ghost predicate QueueOk(md5: string -> Hash, s: Queue, h: State) {
    Light(md5, s, h, h.commits) && Bounded(Core(s), h) && AllDurable(s, h)
  }

  // ---------------------------------------------------------------- forms

  lemma StoredForms(md5: string -> Hash, log: TaggedLog, commit: nat, r: AppendRequest<Tagged>)
    requires forall k :: 0 <= k < |log| ==> Form(md5, log[k].value)
    requires RpcForms(md5, r)
    ensures forall k :: 0 <= k < |Stored(log, commit, r)| ==> Form(md5, Stored(log, commit, r)[k].value)
  {}

  lemma FormsStep(md5: string -> Hash, s: Queue, a: Action<Tagged>, s': Queue, i: nat)
    requires TaggedStep(md5, s, a, s') && i < |s.nodes| && NodeForms(md5, s.nodes[i])
    requires forall l :: l in s.rpcs ==> RpcForms(md5, s.rpcs[l].request)
    ensures |s'.nodes| == |s.nodes| && NodeForms(md5, s'.nodes[i])
  {
    EveryMove(s, a, Strip, i);
    PendingMoves(s, a, Strip, i);
    if link :| Accepts(s, s', link) && link.follower == i {
      AcceptedNode(s, s', link);
      StoredForms(md5, s.nodes[i].log, s.nodes[i].commit, s.rpcs[link].request);
    }
  }

  // ---------------------------------------------------------------- settled copies

  lemma SettledStays(h: State, h': State, commits: set<Commit>, log: Log, log': Log, j: nat)
    requires Evolves(h, h') && Settled(h, commits, log, j) && Agree(log, log', j)
    ensures Settled(h', commits, log', j)
  {
    var c :| c in commits && SettledBy(h, c, log, j);
    assert ReignEvolves(h.lead[c.term], h'.lead[c.term]);
    assert SettledBy(h', c, log', j);
  }

  lemma KnownSettled(h: State, t: nat, log: Log, k: nat, j: nat)
    requires Known(h, t, log, k) && 1 <= j <= k
    ensures Settled(h, h.commits, log, j)
  {
    var c :| KnownBy(h, c, t, log, k);
    assert SettledBy(h, c, log, j);
  }

  lemma SettledPrefix(h: State, h': State, commits: set<Commit>, log: TaggedLog, log': TaggedLog, keep: nat)
    requires Evolves(h, h') && LogSettled(h, commits, log)
    requires keep <= |log| && keep <= |log'| && log'[..keep] == log[..keep]
    ensures forall k :: 0 <= k < keep && !Full(log'[k].value) ==> Settled(h', commits, Ids(log'), k + 1)
  {
    forall k | 0 <= k < keep && !Full(log'[k].value) ensures Settled(h', commits, Ids(log'), k + 1) {
      assert log'[k] == log'[..keep][k] == log[..keep][k] == log[k];
      assert forall m :: 0 <= m <= k ==> log'[m] == log'[..keep][m] == log[..keep][m] == log[m];
      SettledStays(h, h', commits, Ids(log), Ids(log'), k + 1);
    }
  }

  lemma AcceptsCore(s: Queue, s': Queue, link: Link)
    requires Accepts(s, s', link)
    ensures Accepts(Core(s), Core(s'), link)
  {
    MapDelivered(Identity, s, link);
  }

  /** The accepted log: its kept part is the old one, the rest is the request's. */
  lemma StoredParts(log: TaggedLog, commit: nat, r: AppendRequest<Tagged>)
    requires r.prevIndex <= |log| && commit <= |log|
    ensures var log', keep := Stored(log, commit, r), Max(r.prevIndex, commit);
            && keep <= |log'| && log'[..keep] == log[..keep]
            && forall k :: keep <= k < |log'| ==> k - r.prevIndex < |r.entries| && log'[k] == r.entries[k - r.prevIndex]
  {}

  lemma SettledStored(h: State, h': State, commits: set<Commit>, log: TaggedLog, commit: nat, t: nat,
                      r: AppendRequest<Tagged>)
    requires Evolves(h, h') && LogSettled(h, commits, log) && RpcSettled(h, commits, t, r)
    requires r.prevIndex <= |log| && commit <= |log|
    requires Agree(Ids(Stored(log, commit, r)), h.lead[t].log, r.prevIndex + |r.entries|)
    ensures LogSettled(h', commits, Stored(log, commit, r))
  {
    var log', keep := Stored(log, commit, r), Max(r.prevIndex, commit);
    StoredParts(log, commit, r);
    SettledPrefix(h, h', commits, log, log', keep);
    forall k | keep <= k < |log'| && !Full(log'[k].value) ensures Settled(h', commits, Ids(log'), k + 1) {
      SettledStays(h, h', commits, h.lead[t].log, Ids(log'), k + 1);
    }
  }

  lemma SettledAccept(s: Queue, s': Queue, h: State, h': State, link: Link)
    requires Tracked(Core(s), Core(s'), h, h') && Accepts(s, s', link)
    requires LogSettled(h, h.commits, s.nodes[link.follower].log)
    requires RpcSettled(h, h.commits, link.term, s.rpcs[link].request)
    ensures LogSettled(h', h.commits, s'.nodes[link.follower].log)
  {
    var f := link.follower;
    AcceptedNode(s, s', link);
    AcceptedLeadLog(s, s', h, h', link);
    assert NodeOk(h, f, Core(s).nodes[f]);
    SettledStored(h, h', h.commits, s.nodes[f].log, s.nodes[f].commit, link.term, s.rpcs[link].request);
  }

  /** What the follower now holds of the request is what the leader's log holds. */
  lemma AcceptedLeadLog(s: Queue, s': Queue, h: State, h': State, link: Link)
    requires Tracked(Core(s), Core(s'), h, h') && Accepts(s, s', link)
    ensures link.term in h.lead
    ensures Agree(Ids(s'.nodes[link.follower].log), h.lead[link.term].log,
                  s.rpcs[link].request.prevIndex + |s.rpcs[link].request.entries|)
  {
    AcceptedNode(s, s', link);
    assert RpcOk(h, link, Core(s).rpcs[link]) && RpcOk(h', link, Core(s').rpcs[link]);
    assert NodeOk(h', link.follower, Core(s').nodes[link.follower]) && NodeInv(h', link.follower);
    AgreesWithLead(h, h', link, Core(s).rpcs[link], Core(s').rpcs[link], Core(s').nodes[link.follower]);
  }

  lemma AgreesWithLead(h: State, h': State, link: Link, rpc: Rpc<Value>, rpc': Rpc<Value>, n: Node<Value>)
    requires RpcOk(h, link, rpc) && RpcOk(h', link, rpc') && Evolves(h, h') && rpc'.request == rpc.request
    requires rpc'.Answered? && rpc'.reply.success && n.term == link.term
    requires SameNode(n, h'.peers[link.follower]) && PeerOk(h', link.follower)
    ensures Agree(n.log, h.lead[link.term].log, rpc.request.prevIndex + |rpc.request.entries|)
  {
    assert ReignEvolves(h.lead[link.term], h'.lead[link.term]);
  }

  lemma SettledStep(md5: string -> Hash, s: Queue, s': Queue, h: State, h': State, i: nat)
    requires Tracked(Core(s), Core(s'), h, h') && i < |s.nodes| == |s'.nodes| && NodeMoves(s, s', i)
    requires Light(md5, s, h, h.commits)
    ensures LogSettled(h', h.commits, s'.nodes[i].log)
  {
    assert NodeLight(md5, s, h, h.commits, i);
    var n, n' := s.nodes[i], s'.nodes[i];
    if link :| Accepts(s, s', link) && link.follower == i {
      assert CallLight(md5, s, h, h.commits, link);
      SettledAccept(s, s', h, h', link);
    } else {
      SettledPrefix(h, h', h.commits, n.log, n'.log, |n.log|);
    }
  }

  // ---------------------------------------------------------------- requests

  /** The request a leader sends: light, well formed, and settled where it is light. */
  lemma ShippedLight(md5: string -> Hash, h: State, h': State, i: nat, n: Node<Tagged>, next: nat, last: nat)
    requires i < |h.peers| && NodeForms(md5, n) && LogSettled(h, h.commits, n.log) && Evolves(h, h')
    requires 1 <= next <= last + 1 && next - 1 <= |n.log| && last <= |n.log| + |n.pending|
    requires n.term in h.lead && h.lead[n.term].log == Ids(n.log) + Ids(n.pending)
    requires Known(h, n.term, Ids(n.log), n.commit)
    ensures var r := LightRequest(n, i, next, last, Strip);
            RpcForms(md5, r) && RpcSettled(h', h.commits, n.term, r) && RpcLight(r)
  {
    ShippedEntries(md5, i, n, next, last);
    RequestSettled(h, h', n, LightRequest(n, i, next, last, Strip));
  }

  /** The leader has saved entry j, and has committed it or holds it without its payload. */
  ghost predicate Excused(n: Node<Tagged>, j: nat) {
    1 <= j <= |n.log| && (j <= n.commit || !Full(n.log[j - 1].value))
  }

  ghost predicate AllExcused(n: Node<Tagged>, r: AppendRequest<Tagged>) {
    forall k :: 0 <= k < |r.entries| && !Full(r.entries[k].value) ==> Excused(n, r.prevIndex + k + 1)
  }

  lemma RequestSettled(h: State, h': State, n: Node<Tagged>, r: AppendRequest<Tagged>)
    requires LogSettled(h, h.commits, n.log) && Evolves(h, h') && Known(h, n.term, Ids(n.log), n.commit)
    requires n.term in h.lead && h.lead[n.term].log == Ids(n.log) + Ids(n.pending)
    requires AllExcused(n, r)
    ensures RpcSettled(h', h.commits, n.term, r)
  {
    assert ReignEvolves(h.lead[n.term], h'.lead[n.term]);
    forall k | 0 <= k < |r.entries| && !Full(r.entries[k].value)
      ensures Settled(h', h.commits, h'.lead[n.term].log, r.prevIndex + k + 1)
    {
      ShippedSettled(h, h', n, r.prevIndex + k + 1);
    }
  }

  /** Where the request has lost a payload, or never had it, the leader's saved log reaches. */
  lemma ShippedEntries(md5: string -> Hash, i: nat, n: Node<Tagged>, next: nat, last: nat)
    requires NodeForms(md5, n) && n.commit <= |n.log|
    requires 1 <= next <= last + 1 && next - 1 <= |n.log| && last <= |n.log| + |n.pending|
    ensures var r := LightRequest(n, i, next, last, Strip);
            RpcForms(md5, r) && RpcLight(r) && AllExcused(n, r)
  {}

  lemma ShippedSettled(h: State, h': State, n: Node<Tagged>, j: nat)
    requires LogSettled(h, h.commits, n.log) && Evolves(h, h') && Excused(n, j)
    requires n.term in h.lead && h.lead[n.term].log == Ids(n.log) + Ids(n.pending)
    requires Known(h, n.term, Ids(n.log), n.commit)
    ensures n.term in h'.lead && Settled(h', h.commits, h'.lead[n.term].log, j)
  {
    var k := j - 1;
    if j <= n.commit { KnownSettled(h, n.term, Ids(n.log), n.commit, j); } else { assert !Full(n.log[k].value); }
    assert Settled(h, h.commits, Ids(n.log), j);
    assert ReignEvolves(h.lead[n.term], h'.lead[n.term]);
    SettledStays(h, h', h.commits, Ids(n.log), h'.lead[n.term].log, j);
  }

  lemma RpcSettledStays(h: State, h': State, commits: set<Commit>, t: nat, r: AppendRequest<Tagged>)
    requires Evolves(h, h') && RpcSettled(h, commits, t, r) && r.prevIndex + |r.entries| <= |h.lead[t].log|
    ensures RpcSettled(h', commits, t, r)
  {
    assert ReignEvolves(h.lead[t], h'.lead[t]);
    forall k | 0 <= k < |r.entries| && !Full(r.entries[k].value)
      ensures Settled(h', commits, h'.lead[t].log, r.prevIndex + k + 1)
    {
      SettledStays(h, h', commits, h.lead[t].log, h'.lead[t].log, r.prevIndex + k + 1);
    }
  }

  lemma CallStep(md5: string -> Hash, s: Queue, a: Action<Tagged>, s': Queue, h: State, h': State, link: Link)
    requires TaggedStep(md5, s, a, s') && Tracked(Core(s), Core(s'), h, h') && link in s'.rpcs
    requires Light(md5, s, h, h.commits)
    ensures CallLight(md5, s', h', h.commits, link)
  {
    RpcMoves(s, a, Strip, link);
    if link in s.rpcs && s'.rpcs[link].request == s.rpcs[link].request {
      assert CallLight(md5, s, h, h.commits, link) && RpcOk(h, link, Core(s).rpcs[link]);
      RpcSettledStays(h, h', h.commits, link.term, s.rpcs[link].request);
    } else {
      var i := a.node;
      var n := s.nodes[i];
      assert NodeLight(md5, s, h, h.commits, i) && NodeOk(h, i, Core(s).nodes[i]) && NodeInv(h, i);
      ShippedLight(md5, h, h', i, n, n.nextIndex[a.follower], a.last);
    }
  }

  // ---------------------------------------------------------------- committed tails

  lemma TailStored(log: TaggedLog, commit: nat, r: AppendRequest<Tagged>, commit': nat)
    requires r.prevIndex <= |log| && commit <= |log| && RpcLight(r)
    requires commit' == Max(commit, Min(r.leaderCommit, |Stored(log, commit, r)|))
    requires forall k :: r.prevIndex <= k < commit ==> log[k].value.data == ""
    ensures forall k :: r.prevIndex <= k < commit' && k < |Stored(log, commit, r)| ==>
              Stored(log, commit, r)[k].value.data == ""
  {
    StoredParts(log, commit, r);
    var log', keep := Stored(log, commit, r), Max(r.prevIndex, commit);
    assert forall k :: 0 <= k < keep ==> log'[k] == log'[..keep][k] == log[..keep][k] == log[k];
  }

  /** What an accepting follower had committed above the request's start has no payload. */
  lemma TailBefore(s: Queue, h: State, link: Link)
    requires Inv(h) && Coupled(Core(s), h) && CanDeliver(s, link) && link.follower < |h.peers|
    requires TailLight(h, link.follower, s.nodes[link.follower])
    requires s.nodes[link.follower].term <= s.rpcs[link].request.term
    ensures var n, r := s.nodes[link.follower], s.rpcs[link].request;
            n.commit <= |n.log| && forall k :: r.prevIndex <= k < n.commit ==> n.log[k].value.data == ""
  {
    var f := link.follower;
    assert RpcOk(h, link, Core(s).rpcs[link]);
    assert NodeOk(h, f, Core(s).nodes[f]) && NodeInv(h, f);
    if link.term !in h.peers[f].acc { FirstAboveCommit(h, link, Core(s).rpcs[link].request, Core(s).nodes[f]); }
  }

  lemma TailAccept(h: State, h': State, s: Queue, s': Queue, link: Link)
    requires Tracked(Core(s), Core(s'), h, h') && Accepts(s, s', link)
    requires TailLight(h, link.follower, s.nodes[link.follower]) && RpcLight(s.rpcs[link].request)
    ensures TailLight(h', link.follower, s'.nodes[link.follower])
  {
    var f, r := link.follower, s.rpcs[link].request;
    AcceptsCore(s, s', link);
    AcceptedNode(s, s', link);
    TailBefore(s, h, link);
    TailStored(s.nodes[f].log, s.nodes[f].commit, r, s'.nodes[f].commit);
    assert RpcOk(h, link, Core(s).rpcs[link]) && RpcOk(h', link, Core(s').rpcs[link]);
  }

  lemma TailStep(md5: string -> Hash, s: Queue, a: Action<Tagged>, s': Queue, h: State, h': State, i: nat)
    requires TaggedStep(md5, s, a, s') && Tracked(Core(s), Core(s'), h, h') && i < |s.nodes| == |s'.nodes|
    requires NodeMoves(s, s', i) && Light(md5, s, h, h.commits)
    ensures TailLight(h', i, s'.nodes[i])
  {
    assert NodeLight(md5, s, h, h.commits, i) && NodeOk(h', i, Core(s').nodes[i]);
    if link :| Accepts(s, s', link) && link.follower == i {
      assert CallLight(md5, s, h, h.commits, link);
      TailAccept(h, h', s, s', link);
    } else if s'.nodes[i].role != Leader && s'.nodes[i].term in h'.peers[i].acc {
      AcceptsBack(md5, s, a, s', i);
      StillAccepting(Core(s), Core(s'), h, h', i);
    }
  }

  lemma AcceptsBack(md5: string -> Hash, s: Queue, a: Action<Tagged>, s': Queue, i: nat)
    requires TaggedStep(md5, s, a, s') && !exists link :: Accepts(s, s', link) && link.follower == i
    ensures !exists link :: Accepts(Core(s), Core(s'), link) && link.follower == i
  {
    forall link ensures Accepts(Core(s), Core(s'), link) ==> Accepts(s, s', link) {
      if Accepts(Core(s), Core(s'), link) {
        AnsweredNow(s, a, Strip, link);
      }
    }
  }
}
