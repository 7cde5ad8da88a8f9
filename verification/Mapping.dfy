/** The cluster never looks inside a value: translating every value of a run gives a run. */
module Mapping {
  import opened Entries
  import opened Replica
  import opened Cluster

  function MapEntry<A, B>(g: A -> B, e: Entry<A>): Entry<B> { Entry(e.term, g(e.value)) }

  function MapLog<A, B>(g: A -> B, log: seq<Entry<A>>): (r: seq<Entry<B>>)
    ensures |r| == |log|
    ensures forall i :: 0 <= i < |log| ==> r[i] == MapEntry(g, log[i])
  {
    seq(|log|, i requires 0 <= i < |log| => MapEntry(g, log[i]))
  }

  function MapSeq<A, B>(g: A -> B, s: seq<A>): (r: seq<B>)
    ensures |r| == |s|
    ensures forall i :: 0 <= i < |s| ==> r[i] == g(s[i])
  {
    seq(|s|, i requires 0 <= i < |s| => g(s[i]))
  }

  function MapRequest<A, B>(g: A -> B, r: AppendRequest<A>): AppendRequest<B> {
    AppendRequest(r.term, r.leader, r.prevIndex, r.prevTerm, MapLog(g, r.entries), r.leaderCommit)
  }

  function MapRpc<A, B>(g: A -> B, rpc: Rpc<A>): Rpc<B> {
    match rpc
    case Sent(r) => Sent(MapRequest(g, r))
    case Answered(r, reply) => Answered(MapRequest(g, r), reply)
  }

  function MapNode<A, B>(g: A -> B, n: Node<A>): Node<B> {
    Node(n.term, n.votedFor, MapLog(g, n.log), n.role, n.commit, MapSeq(g, n.applied), n.votes,
         MapLog(g, n.pending), n.start, n.nextIndex, n.matchIndex, n.waiting)
  }

  function MapPhase<A, B>(g: A -> B, p: Phase<A>): Phase<B> {
    match p
    case Waiting => Waiting
    case Woken(r) => Woken(if r.Some? then Some(MapSeq(g, r.value)) else None)
    case Committed(applied, at) => Committed(MapSeq(g, applied), at)
    case Refused(at) => Refused(at)
    case Aborted => Aborted
  }

  function MapCall<A, B>(g: A -> B, c: Call<A>): Call<B> {
    Call(c.node, c.term, c.index, g(c.value), c.started, MapPhase(g, c.phase))
  }

  function MapNodes<A, B>(g: A -> B, nodes: seq<Node<A>>): (r: seq<Node<B>>)
    ensures |r| == |nodes|
    ensures forall i :: 0 <= i < |nodes| ==> r[i] == MapNode(g, nodes[i])
  {
    seq(|nodes|, i requires 0 <= i < |nodes| => MapNode(g, nodes[i]))
  }

  function MapCalls<A, B>(g: A -> B, calls: seq<Call<A>>): (r: seq<Call<B>>)
    ensures |r| == |calls|
    ensures forall i :: 0 <= i < |calls| ==> r[i] == MapCall(g, calls[i])
  {
    seq(|calls|, i requires 0 <= i < |calls| => MapCall(g, calls[i]))
  }

  function MapRpcs<A, B>(g: A -> B, rpcs: map<Link, Rpc<A>>): (r: map<Link, Rpc<B>>)
    ensures r.Keys == rpcs.Keys
    ensures forall l :: l in rpcs ==> r[l] == MapRpc(g, rpcs[l])
  {
    map l | l in rpcs :: MapRpc(g, rpcs[l])
  }

  function MapWorld<A, B>(g: A -> B, s: World<A>): World<B> {
    World(MapNodes(g, s.nodes), MapRpcs(g, s.rpcs), s.ballots, s.answers, MapCalls(g, s.calls), s.now)
  }

  function MapAction<A, B>(g: A -> B, a: Action<A>): Action<B> {
    match a
    case Timeout(i) => Timeout(i)
    case AskVote(v, b) => AskVote(v, b)
    case CountVote(answer) => CountVote(answer)
    case Execute(i, v) => Execute(i, g(v))
    case Write(i) => Write(i)
    case Send(i, f, last) => Send(i, f, last)
    case Deliver(link) => Deliver(link)
    case Return(link) => Return(link)
    case Lose(link) => Lose(link)
    case Crash(i) => Crash(i)
    case Wake(id) => Wake(id)
  }

  lemma MapConcat<A, B>(g: A -> B, a: seq<Entry<A>>, b: seq<Entry<A>>)
    ensures MapLog(g, a + b) == MapLog(g, a) + MapLog(g, b)
  {}

  // ---------------------------------------------------------------- nodes

  lemma MapStored<A, B>(g: A -> B, log: seq<Entry<A>>, commit: nat, r: AppendRequest<A>)
    ensures MapLog(g, Stored(log, commit, r)) == Stored(MapLog(g, log), commit, MapRequest(g, r))
  {}

  lemma MapAdvance<A, B>(g: A -> B, n: Node<A>, k: nat)
    ensures MapNode(g, AdvanceCommit(n, k)) == AdvanceCommit(MapNode(g, n), k)
  {
    var m := MapNode(g, n);
    var part := Skip(Take(n.log, k), n.commit);
    assert MapLog(g, part) == Skip(Take(m.log, k), m.commit);
    assert MapSeq(g, n.applied + Values(part)) == MapSeq(g, n.applied) + MapSeq(g, Values(part));
    assert MapSeq(g, Values(part)) == Values(MapLog(g, part));
  }

  lemma MapHandleAppend<A, B>(g: A -> B, n: Node<A>, r: AppendRequest<A>)
    ensures MapNode(g, HandleAppend(n, r).0) == HandleAppend(MapNode(g, n), MapRequest(g, r)).0
    ensures HandleAppend(n, r).1 == HandleAppend(MapNode(g, n), MapRequest(g, r)).1
  {
    if n.term <= r.term && LogMatches(n.log, r) {
      MapStored(g, n.log, n.commit, r);
      var stored := JoinTerm(n.(role := Follower), r.term).(log := Stored(n.log, n.commit, r));
      MapAdvance(g, stored, Max(n.commit, Min(r.leaderCommit, |stored.log|)));
    }
  }

  lemma MapJoin<A, B>(g: A -> B, n: Node<A>, r: VoteRequest)
    ensures MapNode(g, JoinTerm(n, r.term)) == JoinTerm(MapNode(g, n), r.term)
    ensures GrantsVote(n, r) <==> GrantsVote(MapNode(g, n), r)
  {}

  lemma MapHandleVote<A, B>(g: A -> B, n: Node<A>, r: VoteRequest)
    ensures MapNode(g, HandleVote(n, r).0) == HandleVote(MapNode(g, n), r).0
    ensures HandleVote(n, r).1 == HandleVote(MapNode(g, n), r).1
  {
    if r.term >= n.term {
      MapJoin(g, n, r);
      MapJoin(g, JoinTerm(n, r.term), r);
    }
  }

  lemma MapVoteReply<A, B>(g: A -> B, n: Node<A>, size: nat, voter: nat, t: nat, reply: VoteReply)
    ensures MapNode(g, HandleVoteReply(n, size, voter, t, reply)) ==
            HandleVoteReply(MapNode(g, n), size, voter, t, reply)
  {
    assert MapLog(g, []) == [];
  }

  lemma MapSubmit<A, B>(g: A -> B, n: Node<A>, me: nat, v: A, call: nat)
    requires me < |n.nextIndex|
    ensures MapNode(g, Submit(n, me, v, call)) == Submit(MapNode(g, n), me, g(v), call)
  {
    assert MapLog(g, n.pending + [Entry(n.term, v)]) == MapLog(g, n.pending) + [Entry(n.term, g(v))];
  }

  lemma MapFlush<A, B>(g: A -> B, n: Node<A>, me: nat, size: nat)
    requires me < |n.matchIndex|
    ensures MapNode(g, Flush(n, me, size)) == Flush(MapNode(g, n), me, size)
  {
    var saved := Saved(n, me);
    assert MapLog(g, n.log + n.pending) == MapLog(g, n.log) + MapLog(g, n.pending);
    assert MapLog(g, []) == [];
    assert MapNode(g, saved) == Saved(MapNode(g, n), me);
    MapAdvance(g, saved, ScanCommit(saved.matchIndex, saved.commit, saved.start, |saved.log|, Majority(size)));
  }

  lemma MapAppendReply<A, B>(g: A -> B, n: Node<A>, size: nat, f: nat, r: AppendRequest<A>, reply: AppendReply)
    requires f < |n.nextIndex| && f < |n.matchIndex|
    ensures MapNode(g, HandleAppendReply(n, size, f, r, reply)) ==
            HandleAppendReply(MapNode(g, n), size, f, MapRequest(g, r), reply)
  {
    if reply.term <= n.term && reply.success {
      var c := Confirmed(n, f, r);
      assert MapNode(g, c) == Confirmed(MapNode(g, n), f, MapRequest(g, r));
      MapAdvance(g, c, ScanCommit(c.matchIndex, c.commit, c.start, |c.log|, Majority(size)));
    }
  }

  // ---------------------------------------------------------------- the cluster

  lemma MapSetNode<A, B>(g: A -> B, nodes: seq<Node<A>>, i: nat, n: Node<A>)
    requires i < |nodes|
    ensures MapNodes(g, nodes[i := n]) == MapNodes(g, nodes)[i := MapNode(g, n)]
  {}

  lemma MapBecome<A, B>(g: A -> B, s: World<A>, i: nat, n: Node<A>)
    requires i < |s.nodes|
    ensures MapWorld(g, Become(s, i, n)) == Become(MapWorld(g, s), i, MapNode(g, n))
  {
    MapSetNode(g, s.nodes, i, n);
    assert MapCalls(g, StopCalls(s.calls, i)) == StopCalls(MapCalls(g, s.calls), i);
  }

  lemma MapFinish<A, B>(g: A -> B, c: Call<A>, id: nat, before: Node<A>, after: Node<A>)
    ensures MapCall(g, FinishCall(c, id, before, after)) ==
            FinishCall(MapCall(g, c), id, MapNode(g, before), MapNode(g, after))
  {
    assert MapSeq(g, Take(after.applied, c.index)) == Take(MapSeq(g, after.applied), c.index);
  }

  lemma MapWorldAdvance<A, B>(g: A -> B, s: World<A>, i: nat, n: Node<A>)
    requires i < |s.nodes|
    ensures MapWorld(g, Advance(s, i, n)) == Advance(MapWorld(g, s), i, MapNode(g, n))
  {
    MapSetNode(g, s.nodes, i, n);
    var a := MapCalls(g, FinishCalls(s.calls, s.nodes[i], n));
    var b := FinishCalls(MapCalls(g, s.calls), MapNode(g, s.nodes[i]), MapNode(g, n));
    forall k | 0 <= k < |s.calls| ensures a[k] == b[k] { MapFinish(g, s.calls[k], k, s.nodes[i], n); }
    assert a == b;
  }

  lemma MapSetRpc<A, B>(g: A -> B, rpcs: map<Link, Rpc<A>>, l: Link, rpc: Rpc<A>)
    ensures MapRpcs(g, rpcs[l := rpc]) == MapRpcs(g, rpcs)[l := MapRpc(g, rpc)]
  {}

  lemma MapDropRpc<A, B>(g: A -> B, rpcs: map<Link, Rpc<A>>, l: Link)
    ensures MapRpcs(g, rpcs - {l}) == MapRpcs(g, rpcs) - {l}
  {}

  lemma MapOpened<A, B>(g: A -> B, s: World<A>, i: nat, v: A)
    requires Leads(s, i)
    ensures MapWorld(g, Opened(s, i, v)) == Opened(MapWorld(g, s), i, g(v))
  {
    var n := s.nodes[i];
    MapSubmit(g, n, i, v, |s.calls|);
    MapSetNode(g, s.nodes, i, Submit(n, i, v, |s.calls|));
    var c := Call(i, n.term, n.nextIndex[i], v, s.now, Waiting);
    assert MapCalls(g, s.calls + [c]) == MapCalls(g, s.calls) + [MapCall(g, c)];
  }

  lemma MapDelivered<A, B>(g: A -> B, s: World<A>, link: Link)
    requires CanDeliver(s, link)
    ensures MapWorld(g, Delivered(s, link)) == Delivered(MapWorld(g, s), link)
  {
    var n, r := s.nodes[link.follower], s.rpcs[link].request;
    MapHandleAppend(g, n, r);
    MapBecome(g, s, link.follower, HandleAppend(n, r).0);
    MapSetRpc(g, s.rpcs, link, Answered(r, HandleAppend(n, r).1));
  }

  lemma MapReturned<A, B>(g: A -> B, s: World<A>, link: Link)
    requires CanReturn(s, link)
    ensures MapWorld(g, Returned(s, link)) == Returned(MapWorld(g, s), link)
  {
    var n, rpc := s.nodes[link.leader], s.rpcs[link];
    MapAppendReply(g, n, |s.nodes|, link.follower, rpc.request, rpc.reply);
    var n' := HandleAppendReply(n, |s.nodes|, link.follower, rpc.request, rpc.reply);
    MapBecome(g, s, link.leader, n');
    MapWorldAdvance(g, s, link.leader, n');
    MapDropRpc(g, s.rpcs, link);
  }

  lemma MapCrashed<A, B>(g: A -> B, s: World<A>, i: nat)
    requires i < |s.nodes|
    ensures MapWorld(g, Crashed(s, i)) == Crashed(MapWorld(g, s), i)
  {
    var n := s.nodes[i];
    var r := Restarted(n.term, n.votedFor, n.log);
    assert MapLog(g, []) == [] && MapSeq<A, B>(g, []) == [];
    assert MapNode(g, r) == Restarted(n.term, n.votedFor, MapLog(g, n.log));
    MapSetNode(g, s.nodes, i, r);
    assert MapCalls(g, AbortCalls(s.calls, i)) == AbortCalls(MapCalls(g, s.calls), i);
  }

  lemma MapReplied<A, B>(g: A -> B, s: World<A>, id: nat)
    requires CanWake(s, id)
    ensures MapWorld(g, Replied(s, id)) == Replied(MapWorld(g, s), id)
  {
    var c := s.calls[id];
    var n := s.nodes[c.node];
    MapSetNode(g, s.nodes, c.node, n.(waiting := n.waiting - {c.index}));
    assert MapSeq<A, B>(g, []) == [];
    var c' := c.(phase := ReplyPhase(c, n.term, s.now));
    assert MapCalls(g, s.calls[id := c']) == MapCalls(g, s.calls)[id := MapCall(g, c')];
  }

  lemma MapRequested<A, B>(g: A -> B, s: World<A>, i: nat, f: nat, last: nat)
    requires CanSend(s, i, f, last)
    ensures CanSend(MapWorld(g, s), i, f, last)
    ensures MapWorld(g, Requested(s, i, f, last)) == Requested(MapWorld(g, s), i, f, last)
  {
    var n, m := s.nodes[i], MapNode(g, s.nodes[i]);
    var next := n.nextIndex[f];
    assert MapLog(g, MakeRequest(n, i, next, last).entries) == MakeRequest(m, i, next, last).entries;
    MapSetRpc(g, s.rpcs, Link(i, n.term, f), Sent(MakeRequest(n, i, next, last)));
  }

  /** Every step commutes with a translation of values. */
  lemma MapNext<A, B>(g: A -> B, s: World<A>, a: Action<A>)
    requires Enabled(s, a)
    ensures Enabled(MapWorld(g, s), MapAction(g, a))
    ensures MapWorld(g, Next(s, a)) == Next(MapWorld(g, s), MapAction(g, a))
  {
    match a
    case Timeout(i) => MapSetNode(g, s.nodes, i, StartElection(s.nodes[i], i));
    case AskVote(v, b) =>
      MapHandleVote(g, s.nodes[v], b);
      MapBecome(g, s, v, HandleVote(s.nodes[v], b).0);
    case CountVote(w) =>
      var i := w.ballot.candidate;
      MapVoteReply(g, s.nodes[i], |s.nodes|, w.voter, w.ballot.term, w.reply);
      MapBecome(g, s, i, HandleVoteReply(s.nodes[i], |s.nodes|, w.voter, w.ballot.term, w.reply));
    case Execute(i, v) => MapOpened(g, s, i, v);
    case Write(i) =>
      MapFlush(g, s.nodes[i], i, |s.nodes|);
      MapWorldAdvance(g, s, i, Flush(s.nodes[i], i, |s.nodes|));
    case Deliver(link) => MapDelivered(g, s, link);
    case Return(link) => MapReturned(g, s, link);
    case Lose(link) => MapDropRpc(g, s.rpcs, link);
    case Crash(i) => MapCrashed(g, s, i);
    case Wake(id) => MapReplied(g, s, id);
    case Send(i, f, last) => MapRequested(g, s, i, f, last);
  }

  lemma MapEnabled<A, B>(g: A -> B, s: World<A>, a: Action<A>)
    ensures Enabled(MapWorld(g, s), MapAction(g, a)) <==> Enabled(s, a)
  {}
}
