/** A run of five nodes in which a delayed request of an old leader drops a copy of a committed entry.

    Node 0 leads term 1 and gives an entry to node 4 only. Node 2, which lacks it, is elected in term 2
    by nodes 1 and 3, and its first request to node 4 is delayed. Node 0 is elected again in term 3, by
    the same two, and commits its entry with them. Then the request of term 2 arrives at node 4, which
    has not heard of term 3, and the entry makes way.
 */
module LateRequest {
  import opened Entries
  import opened Replica
  import opened Cluster
  import opened WholeSends

  const SIZE := 5

  /** A run as the program makes it: every request carries the whole suffix. */
  ghost predicate RunTo<V(!new)>(worlds: seq<World<V>>, actions: seq<Action<V>>, s: World<V>) {
    IsRun(SIZE, worlds, actions) && worlds[|actions|] == s &&
    forall i :: 0 <= i < |actions| ==> SendsWhole(worlds[i], actions[i])
  }

  ghost predicate Reached<V(!new)>(s: World<V>) {
    |s.nodes| == SIZE && exists worlds, actions :: RunTo<V>(worlds, actions, s)
  }

  lemma Longer<V(!new)>(worlds: seq<World<V>>, actions: seq<Action<V>>, s: World<V>, a: Action<V>)
    requires RunTo(worlds, actions, s) && Enabled(s, a) && SendsWhole(s, a)
    ensures RunTo(worlds + [Next(s, a)], actions + [a], Next(s, a))
  {
    var longer, more := worlds + [Next(s, a)], actions + [a];
    forall i | 0 <= i < |more|
      ensures Enabled(longer[i], more[i]) && longer[i + 1] == Next(longer[i], more[i]) && SendsWhole(longer[i], more[i])
    {
      if i < |actions| { StepOf(worlds, actions, s, i); }
    }
  }

  lemma StepOf<V(!new)>(worlds: seq<World<V>>, actions: seq<Action<V>>, s: World<V>, i: nat)
    requires RunTo(worlds, actions, s) && i < |actions|
    ensures Enabled(worlds[i], actions[i]) && worlds[i + 1] == Next(worlds[i], actions[i])
    ensures SendsWhole(worlds[i], actions[i])
  {}

  lemma Reach<V(!new)>(s: World<V>, a: Action<V>)
    requires Reached(s) && Enabled(s, a) && SendsWhole(s, a) && |Next(s, a).nodes| == SIZE
    ensures Reached(Next(s, a))
  {
    var worlds, actions :| RunTo<V>(worlds, actions, s);
    Longer(worlds, actions, s, a);
  }

  lemma ReachStart<V(!new)>(s: World<V>)
    requires s == Init(SIZE)
    ensures Reached(s) && forall i :: 0 <= i < SIZE ==> s.nodes[i] == Restarted(0, None, [])
  {
    assert RunTo([s], [], s);
  }

  // ---------------------------------------------------------------- elections

  /** Calls between nodes stay, and so do ballots and votes. */
  ghost predicate Still<V>(s: World<V>, s': World<V>) {
    s'.rpcs == s.rpcs && s.ballots <= s'.ballots && s.answers <= s'.answers
  }

  function Voted<V>(n: Node<V>, b: VoteRequest): Node<V> { n.(term := b.term, votedFor := Some(b.candidate)) }

  predicate Votes<V>(n: Node<V>, term: nat) { n.role == Follower && n.log == [] && n.term < term }

  lemma Ask<V(!new)>(s: World<V>, v: nat, b: VoteRequest) returns (s': World<V>, answer: VoteAnswer)
    requires Reached(s) && v < SIZE && v != b.candidate && b in s.ballots && Votes(s.nodes[v], b.term)
    ensures Reached(s') && Still(s, s') && s'.nodes == s.nodes[v := Voted(s.nodes[v], b)]
    ensures answer in s'.answers && answer == VoteAnswer(v, b, VoteReply(s.nodes[v].term, true))
  {
    Reach(s, AskVote(v, b));
    s', answer := Asked(s, v, b), VoteAnswer(v, b, VoteReply(s.nodes[v].term, true));
  }

  /** A vote in the candidate's term is counted; the third one decides. */
  lemma Count<V(!new)>(s: World<V>, answer: VoteAnswer, votes: set<nat>) returns (s': World<V>)
    requires Reached(s) && answer in s.answers && answer.reply.granted
    requires var c := answer.ballot.candidate;
             c < SIZE && s.nodes[c].role == Candidate && s.nodes[c].term == answer.ballot.term >= answer.reply.term &&
             answer.voter !in s.nodes[c].votes && votes == s.nodes[c].votes + {answer.voter}
    ensures Reached(s') && Still(s, s')
    ensures var c := answer.ballot.candidate; var n := s.nodes[c].(votes := votes);
            s'.nodes == s.nodes[c := if |votes| == 3 then BecomeLeader(n, SIZE) else n]
  {
    Reach(s, CountVote(answer));
    s' := Counted(s, answer);
  }

  function BallotOf<V>(n: Node<V>, c: nat): VoteRequest { VoteRequest(n.term + 1, c, |n.log|, LastTerm(n.log)) }

  /** A node stands for election, and two nodes without entries vote for it. */
  lemma Canvass<V(!new)>(s: World<V>, c: nat, v: nat, w: nat) returns (s': World<V>, yes: VoteAnswer, also: VoteAnswer)
    requires Reached(s) && c < SIZE && v < SIZE && w < SIZE && c != v && c != w && v != w && s.nodes[c].role != Leader
    requires Votes(s.nodes[v], s.nodes[c].term + 1) && Votes(s.nodes[w], s.nodes[c].term + 1)
    ensures var n, b := s.nodes[c], BallotOf(s.nodes[c], c);
            && Reached(s') && Still(s, s') && b in s'.ballots && yes in s'.answers && also in s'.answers
            && yes == VoteAnswer(v, b, VoteReply(s.nodes[v].term, true))
            && also == VoteAnswer(w, b, VoteReply(s.nodes[w].term, true))
            && s'.nodes == s.nodes[c := StartElection(n, c)][v := Voted(s.nodes[v], b)][w := Voted(s.nodes[w], b)]
  {
    Reach(s, Timeout(c));
    s' := TimedOut(s, c);
    s', yes := Ask(s', v, BallotOf(s.nodes[c], c));
    s', also := Ask(s', w, BallotOf(s.nodes[c], c));
  }

  /** Two nodes without entries elect a third. */
  lemma Elect<V(!new)>(s: World<V>, c: nat, v: nat, w: nat) returns (s': World<V>)
    requires Reached(s) && c < SIZE && v < SIZE && w < SIZE && c != v && c != w && v != w && s.nodes[c].role != Leader
    requires Votes(s.nodes[v], s.nodes[c].term + 1) && Votes(s.nodes[w], s.nodes[c].term + 1)
    requires s.nodes[c].commit == 0
    ensures Reached(s') && Still(s, s') && BallotOf(s.nodes[c], c) in s'.ballots
    ensures var n, b := s.nodes[c], BallotOf(s.nodes[c], c);
            && |s'.nodes| == SIZE && Fresh(s'.nodes[c], n.term + 1, n.log)
            && s'.nodes == s.nodes[c := s'.nodes[c]][v := Voted(s.nodes[v], b)][w := Voted(s.nodes[w], b)]
  {
    var s1, yes, also := Canvass(s, c, v, w);
    var s2 := Count(s1, yes, {c, v});
    s' := Count(s2, also, {c, v, w});
  }

  // ---------------------------------------------------------------- replication

  /** A leader of two entries at most, none unsaved. */
  predicate Leading<V>(n: Node<V>) { n.role == Leader && Shaped(n, SIZE) && n.pending == [] && n.commit == 0 }

  /** The leader of this node's log, term and start after a round that may have committed. */
  predicate LeadsOn<V>(n: Node<V>, n': Node<V>, next: seq<nat>, matched: seq<nat>) {
    && n'.role == Leader && n'.term == n.term && n'.pending == [] && n'.start == n.start
    && n'.nextIndex == next && n'.matchIndex == matched
    && n'.commit == ScanCommit(matched, n.commit, n.start, |n'.log|, 3)
  }

  /** Nothing commits while fewer than three nodes hold anything new. */
  lemma {:induction false} FewHolders(matched: seq<nat>, start: nat, index: nat, q: set<nat>)
    requires |q| < 3 && forall j: nat :: j < |matched| && j !in q ==> matched[j] == 0
    ensures ScanCommit(matched, 0, start, index, 3) == 0
  {
    if index > 0 && index >= start {
      assert Holders(matched, index) <= q;
      SmallerSet(Holders(matched, index), q);
      FewHolders(matched, start, index - 1, q);
    }
  }

  lemma SmallerSet(a: set<nat>, b: set<nat>)
    requires a <= b
    ensures |a| <= |b|
  {
    assert b == a + (b - a);
  }

  /** A leader just elected with the given log, none of it known to be committed. */
  predicate Fresh<V(==)>(n: Node<V>, term: nat, log: seq<Entry<V>>) {
    && n.role == Leader && n.term == term && n.log == log && n.pending == [] && n.commit == 0 && n.start == |log| + 1
    && n.nextIndex == Repeat(SIZE, |log| + 1) && n.matchIndex == Repeat(SIZE, 0)
  }

  /** The same leader with one entry more. */
  predicate Fuller<V(==)>(n: Node<V>, l: nat, term: nat, log: seq<Entry<V>>, value: V)
    requires l < SIZE
  {
    && n.role == Leader && n.term == term && n.log == log + [Entry(term, value)] && n.pending == [] && n.commit == 0
    && n.start == |log| + 1 && n.nextIndex == Repeat(SIZE, |log| + 1)[l := |log| + 2]
    && n.matchIndex == Repeat(SIZE, 0)[l := |log| + 1]
  }

  lemma FullerNode<V>(n: Node<V>, l: nat, term: nat, log: seq<Entry<V>>, value: V, id: nat)
    requires l < SIZE && Fresh(n, term, log)
    ensures Fuller(Flush(Submit(n, l, value, id), l, SIZE), l, term, log, value)
  {
    FewHolders(n.matchIndex[l := |log| + 1], n.start, |log| + 1, {l});
  }

  /** A new leader takes an entry from a client and saves it. */
  lemma Propose<V(!new)>(s: World<V>, l: nat, term: nat, log: seq<Entry<V>>, value: V) returns (s': World<V>)
    requires Reached(s) && l < SIZE && Fresh(s.nodes[l], term, log)
    ensures Reached(s') && Still(s, s') && |s'.nodes| == SIZE && s'.nodes == s.nodes[l := s'.nodes[l]]
    ensures Fuller(s'.nodes[l], l, term, log, value)
  {
    Reach(s, Execute(l, value));
    FullerNode(s.nodes[l], l, term, log, value, |s.calls|);
    var s1 := Opened(s, l, value);
    Reach(s1, Write(l));
    s' := Written(s1, l);
  }

  /** A whole-suffix request goes out. */
  lemma Ship<V(!new)>(s: World<V>, l: nat, f: nat) returns (s': World<V>)
    requires Reached(s) && l < SIZE && f < SIZE && l != f && Leading(s.nodes[l])
    requires Link(l, s.nodes[l].term, f) !in s.rpcs
    requires 1 <= s.nodes[l].nextIndex[f] <= |s.nodes[l].log| + 1
    ensures Reached(s') && s'.nodes == s.nodes && s'.ballots == s.ballots
    ensures var n := s.nodes[l];
            s'.rpcs == s.rpcs[Link(l, n.term, f) := Sent(MakeRequest(n, l, n.nextIndex[f], |n.log|))]
  {
    var n := s.nodes[l];
    Reach(s, Send(l, f, |n.log|));
    s' := Requested(s, l, f, |n.log|);
  }

  lemma Arrive<V(!new)>(s: World<V>, link: Link) returns (s': World<V>)
    requires Reached(s) && CanDeliver(s, link)
    ensures Reached(s') && s'.ballots == s.ballots
    ensures var f, r := link.follower, s.rpcs[link].request; var (n, reply) := HandleAppend(s.nodes[f], r);
            s'.nodes == s.nodes[f := n] && s'.rpcs == s.rpcs[link := Answered(r, reply)]
  {
    Reach(s, Deliver(link));
    s' := Delivered(s, link);
  }

  lemma Answer<V(!new)>(s: World<V>, link: Link) returns (s': World<V>)
    requires Reached(s) && CanReturn(s, link)
    ensures Reached(s') && s'.ballots == s.ballots && s'.rpcs == s.rpcs - {link}
    ensures var l, f, rpc := link.leader, link.follower, s.rpcs[link];
            s'.nodes == s.nodes[l := HandleAppendReply(s.nodes[l], SIZE, f, rpc.request, rpc.reply)]
  {
    Reach(s, Return(link));
    s' := Returned(s, link);
  }

  /** One round of the session of node 0 with a follower. */
  lemma Exchange<V(!new)>(s: World<V>, f: nat) returns (s': World<V>)
    requires Reached(s) && 0 < f < SIZE && Leading(s.nodes[0]) && 1 <= s.nodes[0].nextIndex[f] <= |s.nodes[0].log| + 1
    requires s.nodes[f].role != Leader && Link(0, s.nodes[0].term, f) !in s.rpcs
    ensures Reached(s') && s'.rpcs == s.rpcs
    ensures var n := s.nodes[0]; var r := MakeRequest(n, 0, n.nextIndex[f], |n.log|);
            var (n', reply) := HandleAppend(s.nodes[f], r);
            s'.nodes == s.nodes[f := n'][0 := HandleAppendReply(n, SIZE, f, r, reply)]
  {
    var link := Link(0, s.nodes[0].term, f);
    var s1 := Ship(s, 0, f);
    var s2 := Arrive(s1, link);
    s' := Answer(s2, link);
    assert s.rpcs[link := s2.rpcs[link]] - {link} == s.rpcs;
  }

  predicate Follows<V>(n: Node<V>, term: nat) { n.role == Follower && n.log == [] && n.commit == 0 && n.term <= term }

  /** A follower that has no entries refuses what follows an entry, and takes a request from the start. */
  lemma Handles<V>(n: Node<V>, r: AppendRequest<V>)
    requires Follows(n, r.term) && r.leaderCommit == 0
    ensures var (n', reply) := HandleAppend(n, r);
            && n'.term == r.term && n'.role == Follower && n'.commit == 0 && reply.term == n.term
            && reply.success == (r.prevIndex == 0) && n'.log == if r.prevIndex == 0 then r.entries else []
  {}

  /** The first request of node 0 to a node without entries is refused, and its next index goes down. */
  lemma Probe<V(!new)>(s: World<V>, f: nat) returns (s': World<V>)
    requires Reached(s) && 0 < f < SIZE && Leading(s.nodes[0]) && s.nodes[0].nextIndex[f] == 2 <= |s.nodes[0].log|
    requires Follows(s.nodes[f], s.nodes[0].term) && Link(0, s.nodes[0].term, f) !in s.rpcs
    ensures Reached(s') && s'.rpcs == s.rpcs && |s'.nodes| == SIZE && Follows(s'.nodes[f], s.nodes[0].term)
    ensures var n := s.nodes[0]; s'.nodes == s.nodes[f := s'.nodes[f]][0 := n.(nextIndex := n.nextIndex[f := 1])]
  {
    var n := s.nodes[0];
    Handles(s.nodes[f], MakeRequest(n, 0, 2, |n.log|));
    s' := Exchange(s, f);
  }

  /** What the leader makes of the acknowledgement of its whole log. */
  lemma Fed<V>(n: Node<V>, f: nat, reply: AppendReply)
    requires Leading(n) && f < SIZE && n.nextIndex[f] == 1 && reply.success && reply.term <= n.term
    ensures var n' := HandleAppendReply(n, SIZE, f, MakeRequest(n, 0, 1, |n.log|), reply);
            n'.log == n.log && LeadsOn(n, n', n.nextIndex[f := |n.log| + 1], n.matchIndex[f := |n.log|])
  {}

  /** From the start of the log, node 0 gives a node all it has. */
  lemma Feed<V(!new)>(s: World<V>, f: nat) returns (s': World<V>)
    requires Reached(s) && 0 < f < SIZE && Leading(s.nodes[0]) && s.nodes[0].nextIndex[f] == 1
    requires Follows(s.nodes[f], s.nodes[0].term) && Link(0, s.nodes[0].term, f) !in s.rpcs
    ensures Reached(s') && s'.rpcs == s.rpcs && |s'.nodes| == SIZE
    ensures s'.nodes == s.nodes[f := s'.nodes[f]][0 := s'.nodes[0]] && s'.nodes[0].log == s.nodes[0].log
    ensures var n := s.nodes[0];
            LeadsOn(n, s'.nodes[0], n.nextIndex[f := |n.log| + 1], n.matchIndex[f := |n.log|])
  {
    var n := s.nodes[0];
    var r := MakeRequest(n, 0, 1, |n.log|);
    Handles(s.nodes[f], r);
    Fed(n, f, HandleAppend(s.nodes[f], r).1);
    s' := Exchange(s, f);
  }

  // ---------------------------------------------------------------- the run

  /** A leader hears of a later term from a candidate that lacks its entries. */
  lemma Retire<V(!new)>(s: World<V>, b: VoteRequest) returns (s': World<V>)
    requires Reached(s) && 0 != b.candidate && b in s.ballots && s.nodes[0].role == Leader && s.nodes[0].term < b.term
    requires b.lastTerm < LastTerm(s.nodes[0].log)
    ensures Reached(s') && Still(s, s')
    ensures s'.nodes == s.nodes[0 := s.nodes[0].(term := b.term, votedFor := None, role := Follower)]
  {
    Reach(s, AskVote(0, b));
    s' := Asked(s, 0, b);
  }

  lemma Stand<V(!new)>(s: World<V>, c: nat) returns (s': World<V>)
    requires Reached(s) && c < SIZE && s.nodes[c].role != Leader
    ensures Reached(s') && Still(s, s') && s'.nodes == s.nodes[c := StartElection(s.nodes[c], c)]
  {
    Reach(s, Timeout(c));
    s' := TimedOut(s, c);
  }

  predicate Holds<V(==)>(n: Node<V>, role: Role, term: nat, log: seq<Entry<V>>) {
    n.role == role && n.term == term && n.log == log && n.commit == 0
  }

  /** Node 0 leads term 1, and only node 4 has its entry. */
  ghost predicate FirstTerm<V(!new)>(s: World<V>, e: Entry<V>) {
    && Reached(s) && Holds(s.nodes[0], Leader, 1, [e]) && Holds(s.nodes[4], Follower, 1, [e])
    && Holds(s.nodes[1], Follower, 1, []) && Holds(s.nodes[3], Follower, 1, []) && Holds(s.nodes[2], Follower, 0, [])
    && s.rpcs.Keys == {Link(0, 1, 4)}
  }

  lemma First<V(!new)>(v: V) returns (s: World<V>)
    ensures FirstTerm(s, Entry(1, v))
  {
    s := Init(SIZE);
    ReachStart(s);
    s := Elect(s, 0, 1, 3);
    s := Propose(s, 0, 1, [], v);
    s := Give(s, v);
  }

  /** Node 4 gets the entry of node 0; the answer stays on its way. */
  lemma Give<V(!new)>(s: World<V>, v: V) returns (s': World<V>)
    requires Reached(s) && Fuller(s.nodes[0], 0, 1, [], v) && Follows(s.nodes[4], 1) && Link(0, 1, 4) !in s.rpcs
    ensures Reached(s') && s'.rpcs.Keys == s.rpcs.Keys + {Link(0, 1, 4)}
    ensures |s'.nodes| == SIZE && s'.nodes == s.nodes[4 := s'.nodes[4]]
    ensures Holds(s'.nodes[4], Follower, 1, [Entry(1, v)])
  {
    var s1 := Ship(s, 0, 4);
    Handles(s.nodes[4], s1.rpcs[Link(0, 1, 4)].request);
    s' := Arrive(s1, Link(0, 1, 4));
  }

  /** Node 2 has led term 2; its request to node 4 is on its way, and node 0 has heard of the term. */
  ghost predicate SecondTerm<V(!new)>(s: World<V>, e: Entry<V>, x: Entry<V>) {
    && Reached(s) && Holds(s.nodes[0], Follower, 2, [e]) && Holds(s.nodes[4], Follower, 1, [e])
    && Holds(s.nodes[1], Follower, 2, []) && Holds(s.nodes[3], Follower, 2, [])
    && s.rpcs.Keys == {Link(0, 1, 4), Link(2, 2, 4)}
    && s.rpcs[Link(2, 2, 4)] == Sent(AppendRequest(2, 2, 0, 0, [x], 0))
  }

  lemma Second<V(!new)>(s: World<V>, e: Entry<V>, v: V) returns (s': World<V>)
    requires FirstTerm(s, e) && e.term == 1
    ensures SecondTerm(s', e, Entry(2, v))
  {
    s' := Stand(s, 2);
    var b := BallotOf(s'.nodes[2], 2);
    s' := Elect(s', 2, 1, 3);
    s' := Propose(s', 2, 2, [], v);
    s' := Ship(s', 2, 4);
    s' := Retire(s', b);
  }

  /** Node 0 leads term 3, and its log is committed; node 4 still has its old copy. */
  ghost predicate ThirdTerm<V(!new)>(s: World<V>, e: Entry<V>, x: Entry<V>, y: Entry<V>) {
    && Reached(s) && s.nodes[0].role == Leader && s.nodes[0].term == 3
    && s.nodes[0].log == [e, y] && s.nodes[0].commit == 2
    && Holds(s.nodes[4], Follower, 1, [e]) && Link(2, 2, 4) in s.rpcs
    && s.rpcs[Link(2, 2, 4)] == Sent(AppendRequest(2, 2, 0, 0, [x], 0))
  }

  lemma Third<V(!new)>(s: World<V>, e: Entry<V>, x: Entry<V>, v: V) returns (s': World<V>)
    requires SecondTerm(s, e, x)
    ensures ThirdTerm(s', e, x, Entry(3, v))
  {
    s' := Elect(s, 0, 1, 3);
    s' := Propose(s', 0, 3, [e], v);
    s' := Spread(s');
  }

  /** Node 0 brings nodes 1 and 3 up to date. */
  lemma Spread<V(!new)>(s: World<V>) returns (s': World<V>)
    requires Reached(s) && Leading(s.nodes[0]) && |s.nodes[0].log| == s.nodes[0].start == 2
    requires s.nodes[0].nextIndex == [3, 2, 2, 2, 2] && s.nodes[0].matchIndex == [2, 0, 0, 0, 0]
    requires Follows(s.nodes[1], s.nodes[0].term) && Follows(s.nodes[3], s.nodes[0].term)
    requires Link(0, s.nodes[0].term, 1) !in s.rpcs && Link(0, s.nodes[0].term, 3) !in s.rpcs
    ensures Reached(s') && s'.rpcs == s.rpcs && s'.nodes[4] == s.nodes[4]
    ensures var n, n' := s.nodes[0], s'.nodes[0];
            n'.role == Leader && n'.term == n.term && n'.log == n.log && n'.commit == 2
  {
    FewHolders([2, 2, 0, 0, 0], 2, 2, {0, 1});
    var s1 := CatchUp(s, 1, [3, 3, 2, 2, 2], [2, 2, 0, 0, 0]);
    assert Holders([2, 2, 0, 2, 0], 2) == {0, 1, 3};
    s' := CatchUp(s1, 3, [3, 3, 2, 3, 2], [2, 2, 0, 2, 0]);
  }

  /** Node 0 brings one node up to date: its first request is refused, its second is not. */
  lemma CatchUp<V(!new)>(s: World<V>, f: nat, next: seq<nat>, matched: seq<nat>) returns (s': World<V>)
    requires Reached(s) && 0 < f < SIZE && Leading(s.nodes[0]) && s.nodes[0].nextIndex[f] == |s.nodes[0].log| == 2
    requires Follows(s.nodes[f], s.nodes[0].term) && Link(0, s.nodes[0].term, f) !in s.rpcs
    requires next == s.nodes[0].nextIndex[f := 3] && matched == s.nodes[0].matchIndex[f := 2]
    ensures Reached(s') && s'.rpcs == s.rpcs && |s'.nodes| == SIZE && s'.nodes[0].log == s.nodes[0].log
    ensures LeadsOn(s.nodes[0], s'.nodes[0], next, matched)
    ensures forall j :: 0 < j < SIZE && j != f ==> s'.nodes[j] == s.nodes[j]
  {
    var s1 := Probe(s, f);
    s' := Feed(s1, f);
    assert s1.nodes[0].nextIndex[f := 3] == next;
  }

  /** Before the last step the leader of term 3 has committed the entry that node 4 holds a copy of;
      the last step delivers a request of term 2, and an entry of term 2 takes the place of the copy. */
  lemma CommittedCopyReplaced<V(!new)>(e: V, x: V, y: V) returns (worlds: seq<World<V>>, actions: seq<Action<V>>)
    ensures |actions| > 0 && IsRun(SIZE, worlds, actions) && actions[|actions| - 1] == Deliver(Link(2, 2, 4))
    ensures forall i :: 0 <= i < |actions| ==> SendsWhole(worlds[i], actions[i])
    ensures var s, s' := worlds[|actions| - 1], worlds[|actions|];
            && |s.nodes| == |s'.nodes| == SIZE && s.nodes[0].role == s'.nodes[0].role == Leader
            && s.nodes[0].log == s'.nodes[0].log == [Entry(1, e), Entry(3, y)]
            && s.nodes[0].commit == s'.nodes[0].commit == 2
            && s.nodes[4].log == [Entry(1, e)] && s'.nodes[4].log == [Entry(2, x)]
  {
    var s := First(e);
    s := Second(s, Entry(1, e), x);
    s := Third(s, Entry(1, e), Entry(2, x), y);
    worlds, actions :| RunTo<V>(worlds, actions, s);
    var link := Link(2, 2, 4);
    Replaced(s.nodes[4], s.rpcs[link].request);
    Longer(worlds, actions, s, Deliver(link));
    worlds, actions := worlds + [Delivered(s, link)], actions + [Deliver(link)];
  }

  lemma Replaced<V>(n: Node<V>, r: AppendRequest<V>)
    requires n.role == Follower && n.commit == 0 && n.term <= r.term && r.prevIndex == 0 && r.leaderCommit == 0
    ensures HandleAppend(n, r).0.log == r.entries && HandleAppend(n, r).0.role == Follower
  {}
}
