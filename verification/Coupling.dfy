/** How the cluster and its history belong together, and what of it survives a step elsewhere. */
module Coupling {
  import opened Entries
  import opened Replica
  import opened Cluster
  import opened Consensus

  type Net = World<Value>

  // ---------------------------------------------------------------- nodes

  ghost predicate SameNode(n: Node<Value>, p: Peer) {
    && p.term == n.term && p.log == n.log && p.commit == n.commit
    && |n.applied| == n.commit <= |n.log|
    && (forall k :: 0 <= k < n.commit ==> n.applied[k] == n.log[k].value)
    && (n.votedFor.Some? <==> n.term in p.vote)
    && (n.votedFor.Some? ==> p.vote[n.term] == n.votedFor.value)
  }

  ghost predicate CandidateOk(h: State, i: nat, n: Node<Value>)
    requires i < |h.peers|
  {
    n.role == Candidate ==>
      && n.term in h.peers[i].cand && h.peers[i].cand[n.term] == n.log
      && (n.term in h.lead ==> h.lead[n.term].owner != i)
      && forall v :: v in n.votes ==>
           v < |h.peers| && n.term in h.peers[v].vote && h.peers[v].vote[n.term] == i
  }

  /** Follower f has refused every previous index above p that the leader of t was elected with. */
  ghost predicate Probed(h: State, t: nat, f: nat, p: nat)
    requires t in h.lead && f < |h.peers|
  {
    && (p < h.lead[t].base ==> h.peers[f].term >= t)
    && (h.peers[f].term == t ==>
          forall q :: p < q <= h.lead[t].base ==> !Matches(h.peers[f].log, h.lead[t].log, q))
  }

  ghost predicate SessionOk(h: State, t: nat, f: nat, next: nat, matched: nat)
    requires t in h.lead && f < |h.peers|
  {
    && 1 <= next <= |h.lead[t].log| + 1 && matched <= next - 1
    && (t in h.peers[f].acc ==> h.peers[f].acc[t].low == next - 1)
    && (t !in h.peers[f].acc ==> matched == 0 && Probed(h, t, f, next - 1))
  }

  /** The leader's own view of its term. */
  ghost predicate ReignSeen(h: State, i: nat, n: Node<Value>)
    requires i < |h.peers|
  {
    && n.term in h.lead && Shaped(n, |h.peers|)
    && h.lead[n.term].owner == i && h.lead[n.term].log == n.log + n.pending
    && h.lead[n.term].base <= |n.log| && n.start == h.lead[n.term].base + 1
    && n.nextIndex[i] == |n.log| + |n.pending| + 1 && n.matchIndex[i] <= |n.log|
    && n.term in h.peers[i].acc && h.peers[i].acc[n.term] == Acc(|n.log|, |n.log|)
  }

  ghost predicate LeaderOk(h: State, i: nat, n: Node<Value>)
    requires i < |h.peers|
  {
    n.role == Leader ==>
      ReignSeen(h, i, n) &&
      forall f :: 0 <= f < |h.peers| && f != i ==> SessionOk(h, n.term, f, n.nextIndex[f], n.matchIndex[f])
  }

  ghost predicate NodeOk(h: State, i: nat, n: Node<Value>)
    requires i < |h.peers|
  {
    SameNode(n, h.peers[i]) && CandidateOk(h, i, n) && LeaderOk(h, i, n)
  }

  ghost predicate NodesOk(s: Net, h: State) {
    |s.nodes| == |h.peers| &&
    forall i {:trigger NodeOk(h, i, s.nodes[i])} :: 0 <= i < |s.nodes| ==> NodeOk(h, i, s.nodes[i])
  }

  // ---------------------------------------------------------------- calls between nodes

  ghost predicate RequestOk(h: State, link: Link, r: AppendRequest<Value>)
    requires link.term in h.lead
  {
    var log := h.lead[link.term].log;
    && r.term == link.term && r.prevIndex + |r.entries| <= |log|
    && r.prevTerm == (if r.prevIndex == 0 then 0 else log[r.prevIndex - 1].term)
    && (forall k :: 0 <= k < |r.entries| ==> r.entries[k] == log[r.prevIndex + k])
    && Known(h, link.term, log, r.leaderCommit)
  }

  ghost predicate RpcOk(h: State, link: Link, rpc: Rpc<Value>) {
    && link.term in h.lead && h.lead[link.term].owner == link.leader
    && link.follower < |h.peers| && link.leader != link.follower
    && RequestOk(h, link, rpc.request)
    && var p, prev := h.peers[link.follower], rpc.request.prevIndex;
       && (link.term in p.acc ==> p.acc[link.term].low == prev)
       && (link.term !in p.acc ==> Probed(h, link.term, link.follower, prev))
       && (rpc.Answered? && rpc.reply.success ==>
             link.term in p.acc && p.acc[link.term].high == prev + |rpc.request.entries|)
       && (rpc.Answered? && !rpc.reply.success && rpc.reply.term <= link.term ==>
             link.term !in p.acc && prev >= 1 && Probed(h, link.term, link.follower, prev - 1) &&
             p.term >= link.term)
  }

  /** While the leader lives, the outstanding call starts at the follower's next index. */
  ghost predicate SessionCall(s: Net, link: Link, prev: nat) {
    link.leader < |s.nodes| && s.nodes[link.leader].role == Leader && s.nodes[link.leader].term == link.term &&
    link.follower < |s.nodes[link.leader].nextIndex| ==>
      s.nodes[link.leader].nextIndex[link.follower] == prev + 1
  }

  ghost predicate RpcsOk(s: Net, h: State) {
    forall link {:trigger RpcOk(h, link, s.rpcs[link])} :: link in s.rpcs ==>
      RpcOk(h, link, s.rpcs[link]) && SessionCall(s, link, s.rpcs[link].request.prevIndex)
  }

  ghost predicate BallotOk(h: State, b: VoteRequest) {
    && b.candidate < |h.peers| && b.term in h.peers[b.candidate].cand
    && var log := h.peers[b.candidate].cand[b.term];
       b.lastIndex == |log| && b.lastTerm == LastTerm(log)
  }

  ghost predicate AnswerOk(h: State, a: VoteAnswer) {
    a.voter < |h.peers| && a.ballot.candidate < |h.peers| &&
    (a.reply.granted ==>
       a.ballot.term in h.peers[a.voter].vote && h.peers[a.voter].vote[a.ballot.term] == a.ballot.candidate)
  }

  ghost predicate VotingOk(s: Net, h: State) {
    (forall b {:trigger BallotOk(h, b)} :: b in s.ballots ==> BallotOk(h, b)) &&
    (forall a {:trigger AnswerOk(h, a)} :: a in s.answers ==> AnswerOk(h, a))
  }

  // ---------------------------------------------------------------- client calls

  ghost predicate ResultOk(h: State, c: Call<Value>, applied: seq<Value>) {
    && c.term in h.lead && Known(h, c.term, h.lead[c.term].log, c.index) && |applied| == c.index
    && forall k :: 0 <= k < c.index ==> applied[k] == h.lead[c.term].log[k].value
  }

  ghost predicate CallOk(s: Net, h: State, c: Call<Value>) {
    && c.node < |s.nodes| && c.started < s.now && c.term <= s.nodes[c.node].term
    && c.term in h.lead && h.lead[c.term].base < c.index <= |h.lead[c.term].log|
    && h.lead[c.term].log[c.index - 1] == Entry(c.term, c.value)
    && match c.phase
       case Waiting => s.nodes[c.node].role == Leader && s.nodes[c.node].term == c.term
       case Woken(None) => c.term < s.nodes[c.node].term
       case Woken(Some(applied)) =>
         c.term < s.nodes[c.node].term || (s.nodes[c.node].role == Leader && ResultOk(h, c, applied))
       case Committed(applied, at) => ResultOk(h, c, applied) && at < s.now
       case Refused(_) => true
       case Aborted => true
  }

  ghost predicate Registered(s: Net, i: nat, index: nat, id: nat) {
    && id < |s.calls| && s.calls[id].node == i && s.calls[id].index == index
    && (s.calls[id].phase.Waiting? || s.calls[id].phase.Woken?)
  }

  ghost predicate WaitingOk(s: Net, i: nat)
    requires i < |s.nodes|
  {
    forall index :: index in s.nodes[i].waiting ==> Registered(s, i, index, s.nodes[i].waiting[index])
  }

  /** If a call committed before another began, it has the smaller index, or the other is doomed. */
  ghost predicate RealTime(h: State, c1: Call<Value>, c2: Call<Value>) {
    c1.phase.Committed? && c1.phase.at < c2.started ==> c1.index < c2.index || Dead(h, c2.term, c2.index)
  }

  ghost predicate CallsOk(s: Net, h: State) {
    && (forall k {:trigger CallOk(s, h, s.calls[k])} :: 0 <= k < |s.calls| ==> CallOk(s, h, s.calls[k]))
    && (forall i :: 0 <= i < |s.nodes| ==> WaitingOk(s, i))
    && (forall k, m :: 0 <= k < m < |s.calls| && s.calls[k].term == s.calls[m].term ==>
          s.calls[k].index < s.calls[m].index)
    && (forall k, m {:trigger RealTime(h, s.calls[k], s.calls[m])} ::
          0 <= k < |s.calls| && 0 <= m < |s.calls| ==> RealTime(h, s.calls[k], s.calls[m]))
  }

  ghost predicate Coupled(s: Net, h: State) {
    NodesOk(s, h) && RpcsOk(s, h) && VotingOk(s, h) && CallsOk(s, h)
  }

  // ---------------------------------------------------------------- what survives

  /** Nothing happened to the peer that matters to a session of term t. */
  ghost predicate Quiet(p: Peer, p': Peer, t: nat) {
    && p.term <= p'.term
    && (t in p'.acc <==> t in p.acc) && (t in p.acc ==> p'.acc[t] == p.acc[t])
    && (p.term == t && p'.term == t ==> p'.log == p.log)
  }

  /** No node acknowledged in a term for the first time. */
  ghost predicate SameAccs(h: State, h': State) {
    |h'.peers| == |h.peers| &&
    forall f, t :: 0 <= f < |h.peers| && t in h'.peers[f].acc ==> t in h.peers[f].acc
  }

  /** A node that acknowledges in a term for the first time was elected in it, or has just accepted. */
  ghost predicate Joins(s: Net, s': Net, h: State, h': State) {
    |h'.peers| == |h.peers| == |s'.nodes| &&
    forall f, t :: 0 <= f < |h.peers| && t in h'.peers[f].acc && t !in h.peers[f].acc ==>
      (s'.nodes[f].role == Leader && s'.nodes[f].term == t) ||
      (exists link :: Accepts(s, s', link) && link.follower == f && link.term == t)
  }

  ghost predicate CommitsAt(s: Net, i: nat, c: Commit) {
    i < |s.nodes| && s.nodes[i].role == Leader && s.nodes[i].term == c.term && s.nodes[i].commit == c.index
  }

  /** A new commit is the commit index of a leader. */
  ghost predicate Witnessed(s': Net, h: State, h': State) {
    forall c :: c in h'.commits && c !in h.commits ==> exists i :: CommitsAt(s', i, c)
  }

  lemma QuietAccs(h: State, h': State, i: nat)
    requires i < |h.peers| == |h'.peers| && h'.peers == h.peers[i := h'.peers[i]]
    requires forall t :: Quiet(h.peers[i], h'.peers[i], t)
    ensures SameAccs(h, h')
  {
    forall f, t | 0 <= f < |h.peers| && t in h'.peers[f].acc ensures t in h.peers[f].acc {
      assert Quiet(h.peers[i], h'.peers[i], t);
    }
  }

  lemma SameAccsJoin(s: Net, s': Net, h: State, h': State)
    requires SameAccs(h, h') && |s'.nodes| == |h.peers|
    ensures Joins(s, s', h, h')
  {}

  lemma ProbedStays(h: State, h': State, t: nat, f: nat, p: nat)
    requires Evolves(h, h') && t in h.lead && f < |h.peers| && Quiet(h.peers[f], h'.peers[f], t)
    requires ReignOk(h, t) && Probed(h, t, f, p)
    ensures Probed(h', t, f, p)
  {
    assert ReignEvolves(h.lead[t], h'.lead[t]);
    if h'.peers[f].term == t {
      forall q | p < q <= h'.lead[t].base ensures !Matches(h'.peers[f].log, h'.lead[t].log, q) {
        assert !Matches(h.peers[f].log, h.lead[t].log, q);
      }
    }
  }

  lemma SessionStays(h: State, h': State, t: nat, f: nat, next: nat, matched: nat)
    requires Evolves(h, h') && t in h.lead && f < |h.peers| && Quiet(h.peers[f], h'.peers[f], t)
    requires ReignOk(h, t) && SessionOk(h, t, f, next, matched)
    ensures SessionOk(h', t, f, next, matched)
  {
    assert ReignEvolves(h.lead[t], h'.lead[t]);
    if t !in h.peers[f].acc { ProbedStays(h, h', t, f, next - 1); }
  }

  lemma RequestStays(h: State, h': State, link: Link, r: AppendRequest<Value>)
    requires Evolves(h, h') && link.term in h.lead && RequestOk(h, link, r)
    ensures link.term in h'.lead && RequestOk(h', link, r)
  {
    var t := link.term;
    assert ReignEvolves(h.lead[t], h'.lead[t]);
    KnownStays(h, h', t, t, h.lead[t].log, r.leaderCommit);
    KnownLonger(h', t, h.lead[t].log, h'.lead[t].log, r.leaderCommit);
  }

  lemma KnownLonger(h: State, t: nat, a: Log, b: Log, k: nat)
    requires Known(h, t, a, k) && Agree(a, b, k)
    ensures Known(h, t, b, k)
  {
    if k > 0 {
      var c :| KnownBy(h, c, t, a, k);
      assert KnownBy(h, c, t, b, k);
    }
  }

  lemma RpcStays(h: State, h': State, link: Link, rpc: Rpc<Value>)
    requires Evolves(h, h') && RpcOk(h, link, rpc) && ReignOk(h, link.term)
    requires Quiet(h.peers[link.follower], h'.peers[link.follower], link.term)
    ensures RpcOk(h', link, rpc)
  {
    var t, f := link.term, link.follower;
    assert ReignEvolves(h.lead[t], h'.lead[t]);
    RequestStays(h, h', link, rpc.request);
    if t !in h.peers[f].acc { ProbedStays(h, h', t, f, rpc.request.prevIndex); }
    if rpc.Answered? && !rpc.reply.success && rpc.reply.term <= t {
      ProbedStays(h, h', t, f, rpc.request.prevIndex - 1);
    }
  }

  lemma VotingStays(s: Net, h: State, h': State)
    requires VotingOk(s, h) && Evolves(h, h')
    ensures VotingOk(s, h')
  {
    forall b | b in s.ballots ensures BallotOk(h', b) {
      assert BallotOk(h, b);
      assert PeerEvolves(h.peers[b.candidate], h'.peers[b.candidate]);
    }
    forall a | a in s.answers ensures AnswerOk(h', a) {
      assert AnswerOk(h, a);
      assert PeerEvolves(h.peers[a.voter], h'.peers[a.voter]);
    }
  }

  lemma CandidateStays(h: State, h': State, i: nat, n: Node<Value>)
    requires Evolves(h, h') && i < |h.peers| && CandidateOk(h, i, n)
    requires n.term in h'.lead && n.term !in h.lead ==> h'.lead[n.term].owner != i
    ensures CandidateOk(h', i, n)
  {
    if n.role == Candidate {
      assert PeerEvolves(h.peers[i], h'.peers[i]);
      if n.term in h.lead { assert ReignEvolves(h.lead[n.term], h'.lead[n.term]); }
      forall v | v in n.votes
        ensures v < |h'.peers| && n.term in h'.peers[v].vote && h'.peers[v].vote[n.term] == i
      {
        assert PeerEvolves(h.peers[v], h'.peers[v]);
      }
    }
  }

  /** A leader other than the node that moved keeps its view. */
  lemma LeaderStays(h: State, h': State, i: nat, n: Node<Value>)
    requires Evolves(h, h') && i < |h.peers| && LeaderOk(h, i, n)
    requires n.role == Leader ==>
               h'.lead[n.term] == h.lead[n.term] && ReignOk(h, n.term) && h'.peers[i].acc == h.peers[i].acc &&
               forall f :: 0 <= f < |h.peers| && f != i ==> Quiet(h.peers[f], h'.peers[f], n.term)
    ensures LeaderOk(h', i, n)
  {
    if n.role == Leader {
      forall f | 0 <= f < |h.peers| && f != i
        ensures SessionOk(h', n.term, f, n.nextIndex[f], n.matchIndex[f])
      {
        assert Quiet(h.peers[f], h'.peers[f], n.term);
        SessionStays(h, h', n.term, f, n.nextIndex[f], n.matchIndex[f]);
      }
    }
  }

  lemma ResultStays(h: State, h': State, c: Call<Value>, applied: seq<Value>)
    requires Evolves(h, h') && ResultOk(h, c, applied)
    ensures ResultOk(h', c, applied)
  {
    var log, log' := h.lead[c.term].log, h'.lead[c.term].log;
    assert ReignEvolves(h.lead[c.term], h'.lead[c.term]);
    KnownStays(h, h', c.term, c.term, log, c.index);
    KnownLonger(h', c.term, log, log', c.index);
  }

  /** A call is not disturbed unless it waits at a node that stops leading its term. */
  lemma CallStays(s: Net, s': Net, h: State, h': State, c: Call<Value>)
    requires Evolves(h, h') && CallOk(s, h, c) && s.now <= s'.now
    requires c.node < |s'.nodes| && s.nodes[c.node].term <= s'.nodes[c.node].term
    requires s.nodes[c.node].role == Leader && s'.nodes[c.node].term == s.nodes[c.node].term ==>
               s'.nodes[c.node].role == Leader
    requires c.phase.Waiting? ==> s'.nodes[c.node].term == s.nodes[c.node].term
    ensures CallOk(s', h', c)
  {
    assert ReignEvolves(h.lead[c.term], h'.lead[c.term]);
    match c.phase
    case Woken(Some(applied)) =>
      if ResultOk(h, c, applied) { ResultStays(h, h', c, applied); }
    case Committed(applied, at) => ResultStays(h, h', c, applied);
    case _ =>
  }

  lemma RealTimeStays(h: State, h': State, c1: Call<Value>, c2: Call<Value>)
    requires Evolves(h, h') && RealTime(h, c1, c2)
    ensures RealTime(h', c1, c2)
  {
    if Dead(h, c2.term, c2.index) { DeadStays(h, h', c2.term, c2.index); }
  }
}
