/** What a majority of nodes that hear from each other can do from any state: elect the one of them
    whose log is most complete, have it accept an entry, and commit it.

    Nothing here depends on how the state came about, except for the few facts of Healthy.
 */
module Progress {
  import opened Entries
  import opened Replica
  import opened Cluster
  import opened Metamorphosis
  import opened MainNodes
  import opened Elections

  /** The nodes that hear from each other, the one that is to lead, and what its client asks for.
      Leaders may spare followers, as the queue's do, or always send all they have. */
  datatype Plan<!V> = Plan(strip: V -> V, q: set<nat>, lead: nat, value: V, spare: bool)

  /** The cluster, and what the sessions of the node that is to lead think of their followers. */
  datatype At<V> = At(world: World<V>, alive: seq<bool>)

  /** Only the nodes of the majority act, none crashes, and no call between them is lost. */
  predicate Among<V>(q: set<nat>, s: World<V>, a: Action<V>) {
    match a
    case Timeout(i) => i in q
    case AskVote(v, b) => v in q && b.candidate in q
    case CountVote(w) => w.voter in q && w.ballot.candidate in q
    case Execute(i, _) => i in q
    case Write(i) => i in q
    case Send(i, _, _) => i in q
    case Deliver(link) => link.leader in q && link.follower in q
    case Return(link) => link.leader in q && link.follower in q
    case Lose(link) => link.leader in q && link.follower !in q
    case Crash(_) => false
    case Wake(id) => id < |s.calls| && s.calls[id].node in q
  }

  /** A request is the one the program makes. */
  predicate Sends<V>(p: Plan<V>, s: World<V>, a: Action<V>, alive: seq<bool>) {
    a.Send? ==>
      a.node == p.lead < |s.nodes| == |alive| &&
      var n := s.nodes[a.node];
      a.follower < |n.nextIndex| && 1 <= n.nextIndex[a.follower] &&
      a.last == if p.spare then LastSent(n, a.node, |s.nodes|, a.follower, alive) else |n.log| + |n.pending|
  }

  ghost predicate Step<V>(p: Plan<V>, x: At<V>, a: Action<V>, y: At<V>) {
    && Possible(x.world, a) && y.world == After(x.world, a, p.strip)
    && Among(p.q, x.world, a) && (a.Execute? ==> a.value == p.value) && Sends(p, x.world, a, x.alive)
    && p.lead < |x.world.nodes| == |y.world.nodes|
    && y.alive == AliveAfter(x.alive, x.world, a, y.world, p.lead)
  }

  ghost predicate IsPath<V>(p: Plan<V>, ats: seq<At<V>>, actions: seq<Action<V>>) {
    |ats| == |actions| + 1 &&
    forall i {:trigger Step(p, ats[i], actions[i], ats[i + 1])} ::
      0 <= i < |actions| ==> Step(p, ats[i], actions[i], ats[i + 1])
  }

  ghost predicate PathTo<V>(p: Plan<V>, ats: seq<At<V>>, actions: seq<Action<V>>, x: At<V>, y: At<V>) {
    IsPath(p, ats, actions) && ats[0] == x && ats[|actions|] == y
  }

  /** The steps so far lead from x to y. */
  ghost predicate Reaches<V(!new)>(p: Plan<V>, x: At<V>, y: At<V>) {
    && |y.world.nodes| == |x.world.nodes| == |y.alive| >= 2 && IsQuorum(|y.world.nodes|, p.q) && p.lead in p.q
    && exists ats, actions :: PathTo(p, ats, actions, x, y)
  }

  lemma Here<V(!new)>(p: Plan<V>, x: At<V>)
    requires |x.world.nodes| == |x.alive| >= 2 && IsQuorum(|x.world.nodes|, p.q) && p.lead in p.q
    ensures Reaches(p, x, x)
  {
    assert PathTo(p, [x], [], x, x);
  }

  lemma Longer<V(!new)>(p: Plan<V>, ats: seq<At<V>>, actions: seq<Action<V>>, x: At<V>, y: At<V>, a: Action<V>,
                        z: At<V>)
    requires PathTo(p, ats, actions, x, y) && Step(p, y, a, z)
    ensures PathTo(p, ats + [z], actions + [a], x, z)
  {
    var longer, more := ats + [z], actions + [a];
    forall i | 0 <= i < |more| ensures Step(p, longer[i], more[i], longer[i + 1]) {
      if i < |actions| { assert Step(p, ats[i], actions[i], ats[i + 1]); }
    }
  }

  /** One step more. */
  lemma Go<V(!new)>(p: Plan<V>, x: At<V>, y: At<V>, a: Action<V>, s: World<V>) returns (z: At<V>)
    requires Reaches(p, x, y) && Possible(y.world, a) && Among(p.q, y.world, a) && Sends(p, y.world, a, y.alive)
    requires a.Execute? ==> a.value == p.value
    requires s == After(y.world, a, p.strip) && |s.nodes| == |y.world.nodes|
    ensures Reaches(p, x, z) && z == At(s, AliveAfter(y.alive, y.world, a, s, p.lead))
  {
    z := At(s, AliveAfter(y.alive, y.world, a, s, p.lead));
    var ats, actions :| PathTo(p, ats, actions, x, y);
    Longer(p, ats, actions, x, y, a, z);
  }

  // ---------------------------------------------------------------- terms and votes

  ghost predicate SameLog<V>(n: Node<V>, n': Node<V>) {
    n'.log == n.log && n'.commit == n.commit && n.term <= n'.term
  }

  /** Logs, commit indexes and calls between nodes are as before, and no term is lower. */
  ghost predicate Calm<V>(s: World<V>, s': World<V>) {
    && |s'.nodes| == |s.nodes| && s'.rpcs == s.rpcs && s.ballots <= s'.ballots && |s'.calls| == |s.calls|
    && forall i {:trigger s'.nodes[i]} :: 0 <= i < |s.nodes| ==> SameLog(s.nodes[i], s'.nodes[i])
  }

  /** A ballot of a higher term makes a follower, and takes its vote if its log is not ahead. */
  lemma Ask<V(!new)>(p: Plan<V>, x: At<V>, y: At<V>, v: nat, b: VoteRequest) returns (z: At<V>)
    requires Reaches(p, x, y) && v in p.q && b.candidate in p.q && v != b.candidate && b in y.world.ballots
    requires y.world.nodes[v].term < b.term
    ensures Reaches(p, x, z) && Calm(y.world, z.world) && y.world.answers <= z.world.answers
    ensures z.world.nodes == y.world.nodes[v := z.world.nodes[v]]
    ensures z.world.nodes[v].role == Follower && z.world.nodes[v].term == b.term
    ensures forall log :: BallotFor(b, b.candidate, log) && NotAhead(y.world.nodes[v].log, log) ==>
              VoteAnswer(v, b, VoteReply(y.world.nodes[v].term, true)) in z.world.answers
  {
    z := Go(p, x, y, AskVote(v, b), Asked(y.world, v, b));
  }

  lemma Stand<V(!new)>(p: Plan<V>, x: At<V>, y: At<V>, i: nat) returns (z: At<V>)
    requires Reaches(p, x, y) && i in p.q && y.world.nodes[i].role != Leader
    ensures Reaches(p, x, z) && Calm(y.world, z.world)
    ensures z.world.nodes == y.world.nodes[i := StartElection(y.world.nodes[i], i)]
    ensures Ballot(z.world.nodes[i], i) in z.world.ballots
  {
    z := Go(p, x, y, Timeout(i), TimedOut(y.world, i));
  }

  /** A candidate of a term above t, with its ballot out. */
  ghost predicate StandsAbove<V>(s: World<V>, i: nat, t: nat) {
    i < |s.nodes| && s.nodes[i].role == Candidate && s.nodes[i].term > t && s.nodes[i].votes == {i} &&
    Ballot(s.nodes[i], i) in s.ballots
  }

  lemma {:induction false} StandAbove<V(!new)>(p: Plan<V>, x: At<V>, y: At<V>, i: nat, t: nat) returns (z: At<V>)
    requires Reaches(p, x, y) && i in p.q && y.world.nodes[i].role != Leader
    ensures Reaches(p, x, z) && Calm(y.world, z.world) && StandsAbove(z.world, i, t)
    ensures z.world.nodes == y.world.nodes[i := z.world.nodes[i]]
    decreases t - y.world.nodes[i].term
  {
    z := Stand(p, x, y, i);
    if z.world.nodes[i].term <= t { z := StandAbove(p, x, z, i, t); }
  }

  /** The ballot with which a node stands, or stood before it was elected, is still on its way. */
  ghost predicate HasBallot<V>(s: World<V>, i: nat)
    requires i < |s.nodes|
  {
    s.nodes[i].role == Follower || exists b :: b in s.ballots && b.candidate == i && b.term == s.nodes[i].term
  }

  /** What the argument needs of a state. */
  ghost predicate Healthy<V>(s: World<V>) {
    && (forall i :: 0 <= i < |s.nodes| ==> s.nodes[i].commit <= |s.nodes[i].log| && HasBallot(s, i))
    && (forall i, j :: 0 <= i < j < |s.nodes| && s.nodes[i].role == s.nodes[j].role == Leader ==>
          s.nodes[i].term != s.nodes[j].term)
    && (forall link :: link in s.rpcs && link.leader < |s.nodes| ==> link.term <= s.nodes[link.leader].term)
  }

  /** A leader gives up when another node of the majority stands, or leads, in a higher term. */
  lemma GiveUp<V(!new)>(p: Plan<V>, x: At<V>, y: At<V>, d: nat) returns (z: At<V>)
    requires Reaches(p, x, y) && Healthy(y.world) && d in p.q && d != p.lead
    ensures Reaches(p, x, z) && Calm(y.world, z.world) && z.world.nodes[p.lead].role != Leader
  {
    var s, l := y.world, p.lead;
    if s.nodes[l].role != Leader {
      z := y;
    } else if s.nodes[d].role == Leader && s.nodes[d].term > s.nodes[l].term {
      var b :| b in s.ballots && b.candidate == d && b.term == s.nodes[d].term;
      z := Ask(p, x, y, l, b);
    } else {
      z := y;
      if s.nodes[d].role == Leader {
        var b :| b in s.ballots && b.candidate == l && b.term == s.nodes[l].term;
        z := Ask(p, x, y, d, b);
      }
      var w := StandAbove(p, x, z, d, s.nodes[l].term);
      z := Ask(p, x, w, l, Ballot(w.world.nodes[d], d));
    }
  }

  /** A majority has at least two nodes, and its terms a bound. */
  lemma Another(size: nat, q: set<nat>, l: nat) returns (d: nat)
    requires IsQuorum(size, q) && size >= 2 && l in q
    ensures d in q && d != l
  {
    assert |q - {l}| == |q| - 1;
    d :| d in q - {l};
  }

  lemma {:induction false} TermBound<V>(nodes: seq<Node<V>>) returns (t: nat)
    ensures forall i :: 0 <= i < |nodes| ==> nodes[i].term <= t
  {
    if nodes == [] {
      t := 0;
    } else {
      var u := TermBound(nodes[1..]);
      t := Max(u, nodes[0].term);
      forall i | 0 <= i < |nodes| ensures nodes[i].term <= t { if i > 0 { assert nodes[i] == nodes[1..][i - 1]; } }
    }
  }

  /** The vote for the ballot is on its way back. */
  ghost predicate VoteCast<V>(s: World<V>, v: nat, b: VoteRequest) {
    v < |s.nodes| && s.nodes[v].term == b.term &&
    exists t: nat :: t < b.term && VoteAnswer(v, b, VoteReply(t, true)) in s.answers
  }

  /** Every node of the set votes for the candidate. */
  lemma {:induction false} Canvass<V(!new)>(p: Plan<V>, x: At<V>, y: At<V>, todo: set<nat>) returns (z: At<V>)
    requires Reaches(p, x, y) && Ballot(y.world.nodes[p.lead], p.lead) in y.world.ballots
    requires todo <= p.q - {p.lead}
    requires forall v :: v in todo ==> y.world.nodes[v].term < y.world.nodes[p.lead].term &&
                                       NotAhead(y.world.nodes[v].log, y.world.nodes[p.lead].log)
    ensures Reaches(p, x, z) && Calm(y.world, z.world) && y.world.answers <= z.world.answers
    ensures forall i :: 0 <= i < |y.world.nodes| && i !in todo ==> z.world.nodes[i] == y.world.nodes[i]
    ensures forall v :: v in todo ==> VoteCast(z.world, v, Ballot(y.world.nodes[p.lead], p.lead))
    decreases |todo|
  {
    z := y;
    if todo != {} {
      var b := Ballot(y.world.nodes[p.lead], p.lead);
      var v :| v in todo;
      var w := Ask(p, x, y, v, b);
      assert BallotFor(b, b.candidate, y.world.nodes[p.lead].log);
      assert VoteCast(w.world, v, b);
      z := Canvass(p, x, w, todo - {v});
      assert VoteCast(z.world, v, b);
    }
  }

  /** A leader just elected: nothing unsaved, and every session starts above its log. */
  predicate Elected<V>(n: Node<V>, size: nat) {
    && n.role == Leader && n.pending == [] && n.start == |n.log| + 1
    && n.nextIndex == Repeat(size, |n.log| + 1) && n.matchIndex == Repeat(size, 0)
  }

  /** One more vote is counted, and decides or not. */
  lemma Count<V(!new)>(p: Plan<V>, x: At<V>, y: At<V>, b: VoteRequest, v: nat) returns (z: At<V>)
    requires Reaches(p, x, y) && b.candidate == p.lead && v in p.q && VoteCast(y.world, v, b)
    requires var n := y.world.nodes[p.lead]; n.role == Candidate && n.term == b.term && v !in n.votes
    ensures Reaches(p, x, z) && Calm(y.world, z.world) && y.world.answers == z.world.answers
    ensures z.world.nodes == y.world.nodes[p.lead := z.world.nodes[p.lead]]
    ensures var n, n' := y.world.nodes[p.lead], z.world.nodes[p.lead];
            && n'.votes == n.votes + {v} && n'.term == n.term
            && if |n'.votes| == |y.world.nodes| / 2 + 1 then Elected(n', |y.world.nodes|) else n'.role == Candidate
  {
    var t: nat :| t < b.term && VoteAnswer(v, b, VoteReply(t, true)) in y.world.answers;
    var a := VoteAnswer(v, b, VoteReply(t, true));
    AnswerCounted(y.world, a);
    z := Go(p, x, y, CountVote(a), Counted(y.world, a));
  }

  /** The candidate counts votes until they are a majority. */
  lemma {:induction false} Win<V(!new)>(p: Plan<V>, x: At<V>, y: At<V>, b: VoteRequest) returns (z: At<V>)
    requires Reaches(p, x, y) && b.candidate == p.lead && p.lead in y.world.nodes[p.lead].votes
    requires var n := y.world.nodes[p.lead];
             n.role == Candidate && n.term == b.term && n.votes <= p.q && |n.votes| <= |y.world.nodes| / 2
    requires forall v :: v in p.q && v != p.lead ==> VoteCast(y.world, v, b)
    ensures Reaches(p, x, z) && Calm(y.world, z.world)
    ensures z.world.nodes == y.world.nodes[p.lead := z.world.nodes[p.lead]]
    ensures Elected(z.world.nodes[p.lead], |z.world.nodes|) && z.world.nodes[p.lead].term == b.term
    decreases |y.world.nodes| - |y.world.nodes[p.lead].votes|
  {
    var votes := y.world.nodes[p.lead].votes;
    if p.q <= votes { SubsetSize(p.q, votes); }
    var v :| v in p.q && v !in votes;
    z := Count(p, x, y, b, v);
    if z.world.nodes[p.lead].role != Leader {
      forall u | u in p.q && u != p.lead ensures VoteCast(z.world, u, b) { assert VoteCast(y.world, u, b); }
      z := Win(p, x, z, b);
    }
  }

  /** From any healthy state the most complete node of the majority comes to lead a term above those
      of all others, and no call of that term is on its way. */
  lemma Elect<V(!new)>(p: Plan<V>, x: At<V>) returns (z: At<V>)
    requires |x.world.nodes| == |x.alive| >= 2 && IsQuorum(|x.world.nodes|, p.q) && p.lead in p.q && Healthy(x.world)
    requires forall v :: v in p.q ==> NotAhead(x.world.nodes[v].log, x.world.nodes[p.lead].log)
    ensures Reaches(p, x, z) && Calm(x.world, z.world) && Elected(z.world.nodes[p.lead], |z.world.nodes|)
    ensures forall v :: v in p.q ==> z.world.nodes[v].term <= z.world.nodes[p.lead].term
    ensures forall f :: Link(p.lead, z.world.nodes[p.lead].term, f) !in z.world.rpcs
  {
    Here(p, x);
    var d := Another(|x.world.nodes|, p.q, p.lead);
    var w := GiveUp(p, x, x, d);
    var t := TermBound(w.world.nodes);
    var y := StandAbove(p, x, w, p.lead, t);
    var b := Ballot(y.world.nodes[p.lead], p.lead);
    var v := Canvass(p, x, y, p.q - {p.lead});
    z := Win(p, x, v, b);
  }

  // ---------------------------------------------------------------- one round of a session

  /** The leader's request to the follower carries all it has. */
  predicate Full<V>(p: Plan<V>, n: Node<V>, f: nat, alive: seq<bool>) {
    && n.role == Leader && n.pending == [] && |n.nextIndex| == |n.matchIndex| == |alive| && f < |alive|
    && 1 <= n.nextIndex[f] <= |n.log| + 1 && n.commit <= |n.log|
    && (p.spare ==> n.commit == |n.log| || !Spare(p.lead, |alive|, f, alive))
  }

  /** The requests of the leader to this node have arrived or are lost. */
  predicate Idle<V>(p: Plan<V>, s: World<V>, f: nat) {
    p.lead < |s.nodes| && Link(p.lead, s.nodes[p.lead].term, f) !in s.rpcs
  }

  /** The calls at the leader have changed as its commit index tells. */
  ghost predicate CallsAdvance<V>(p: Plan<V>, s: World<V>, s': World<V>) {
    p.lead < |s.nodes| == |s'.nodes| && |s'.calls| == |s.calls| &&
    forall k {:trigger s'.calls[k]} :: 0 <= k < |s.calls| && s.calls[k].node == p.lead ==>
      s'.calls[k] == FinishCall(s.calls[k], k, s.nodes[p.lead], s'.nodes[p.lead])
  }

  function RequestTo<V>(p: Plan<V>, n: Node<V>, f: nat): AppendRequest<V>
    requires f < |n.nextIndex| && 1 <= n.nextIndex[f] <= |n.log| + 1
  {
    LightRequest(n, p.lead, n.nextIndex[f], |n.log|, p.strip)
  }

  /** Request out. */
  lemma Ship<V(!new)>(p: Plan<V>, x: At<V>, y: At<V>, f: nat) returns (z: At<V>)
    requires Reaches(p, x, y) && f < |y.alive| && f != p.lead && Idle(p, y.world, f)
    requires Full(p, y.world.nodes[p.lead], f, y.alive)
    ensures Reaches(p, x, z) && z.alive == y.alive
    ensures var n := y.world.nodes[p.lead];
            z.world == y.world.(rpcs := y.world.rpcs[Link(p.lead, n.term, f) := Sent(RequestTo(p, n, f))],
                                now := y.world.now + 1)
  {
    var n := y.world.nodes[p.lead];
    z := Go(p, x, y, Send(p.lead, f, |n.log|), Shipped(y.world, p.lead, f, |n.log|, p.strip));
  }

  /** Request in. */
  lemma Arrive<V(!new)>(p: Plan<V>, x: At<V>, y: At<V>, link: Link) returns (z: At<V>)
    requires Reaches(p, x, y) && CanDeliver(y.world, link) && link.leader == p.lead && link.follower in p.q - {p.lead}
    requires y.world.nodes[p.lead].role == Leader
    ensures Reaches(p, x, z) && z.alive == y.alive && CallsAdvance(p, y.world, z.world)
    ensures var f, r := link.follower, y.world.rpcs[link].request; var (m, reply) := HandleAppend(y.world.nodes[f], r);
            z.world.nodes == y.world.nodes[f := m] && z.world.rpcs == y.world.rpcs[link := Answered(r, reply)]
  {
    z := Go(p, x, y, Deliver(link), Delivered(y.world, link));
  }

  /** Answer back. */
  lemma Answer<V(!new)>(p: Plan<V>, x: At<V>, y: At<V>, link: Link) returns (z: At<V>)
    requires Reaches(p, x, y) && CanReturn(y.world, link) && link.leader == p.lead && link.follower in p.q - {p.lead}
    requires y.world.rpcs[link].reply.term <= y.world.nodes[p.lead].term
    ensures Reaches(p, x, z) && z.alive == y.alive[link.follower := true] && CallsAdvance(p, y.world, z.world)
    ensures z.world.rpcs == y.world.rpcs - {link}
    ensures var n, rpc := y.world.nodes[p.lead], y.world.rpcs[link];
            z.world.nodes == y.world.nodes[p.lead :=
              HandleAppendReply(n, |y.world.nodes|, link.follower, rpc.request, rpc.reply)]
  {
    z := Go(p, x, y, Return(link), Returned(y.world, link));
  }

  lemma Exchange<V(!new)>(p: Plan<V>, x: At<V>, y: At<V>, f: nat) returns (z: At<V>)
    requires Reaches(p, x, y) && f in p.q - {p.lead} && Idle(p, y.world, f)
    requires Full(p, y.world.nodes[p.lead], f, y.alive)
    requires y.world.nodes[f].term <= y.world.nodes[p.lead].term
    ensures Reaches(p, x, z) && z.alive == y.alive[f := true] && z.world.rpcs == y.world.rpcs
    ensures CallsAdvance(p, y.world, z.world)
    ensures var n := y.world.nodes[p.lead]; var r := RequestTo(p, n, f);
            var (m, reply) := HandleAppend(y.world.nodes[f], r);
            z.world.nodes == y.world.nodes[f := m][p.lead := HandleAppendReply(n, |y.world.nodes|, f, r, reply)]
  {
    var link := Link(p.lead, y.world.nodes[p.lead].term, f);
    var u := Ship(p, x, y, f);
    var w := Arrive(p, x, u, link);
    z := Answer(p, x, w, link);
    assert y.world.rpcs[link := w.world.rpcs[link]] - {link} == y.world.rpcs;
  }

  // ---------------------------------------------------------------- repair

  /** What a follower makes of a request of its own term or a later one. */
  lemma Handled<V>(m: Node<V>, r: AppendRequest<V>)
    requires m.term <= r.term && m.commit <= |m.log|
    ensures var (m', reply) := HandleAppend(m, r);
            && m'.term == r.term && m.commit <= m'.commit <= |m'.log| && reply.term == m.term
            && (r.prevIndex == 0 ==> reply.success)
            && (reply.success ==> Min(r.leaderCommit, r.prevIndex + |r.entries|) <= m'.commit)
  {}

  /** What the leader makes of its answer. */
  lemma Taken<V>(p: Plan<V>, n: Node<V>, f: nat, size: nat, reply: AppendReply)
    requires n.role == Leader && n.pending == [] && |n.nextIndex| == |n.matchIndex| && f < |n.nextIndex|
    requires 1 <= n.nextIndex[f] <= |n.log| + 1 && reply.term <= n.term
    ensures var n' := HandleAppendReply(n, size, f, RequestTo(p, n, f), reply);
            if reply.success then Confirms(n, n', f, size)
            else n' == n.(nextIndex := n.nextIndex[f := n.nextIndex[f] - 1])
  {}

  /** The leader knows that the follower holds all of its log, and has drawn its conclusions. */
  ghost predicate Confirms<V>(n: Node<V>, n': Node<V>, f: nat, size: nat) {
    && f < |n.nextIndex| == |n.matchIndex|
    && n'.role == Leader && n'.term == n.term && n'.log == n.log && n'.pending == [] && n'.start == n.start
    && n'.waiting == n.waiting && n'.nextIndex == n.nextIndex[f := |n.log| + 1]
    && n'.matchIndex == n.matchIndex[f := |n.log|]
    && n'.commit == ScanCommit(n'.matchIndex, n.commit, n.start, |n.log|, Majority(size))
  }

  /** The leader and one follower have changed: the follower holds the leader's log, has heard of its
      term and of its commit index. */
  ghost predicate CaughtUp<V>(p: Plan<V>, y: At<V>, z: At<V>, f: nat) {
    && p.lead < |y.world.nodes| && f < |y.world.nodes| == |z.world.nodes| && f < |y.alive|
    && z.world.nodes == y.world.nodes[f := z.world.nodes[f]][p.lead := z.world.nodes[p.lead]]
    && z.world.rpcs == y.world.rpcs && z.alive == y.alive[f := true] && CallsAdvance(p, y.world, z.world)
    && var n, n', m, m' := y.world.nodes[p.lead], z.world.nodes[p.lead], y.world.nodes[f], z.world.nodes[f];
       && Confirms(n, n', f, |y.world.nodes|)
       && m'.term == n.term && m.commit <= m'.commit <= |m'.log| && Min(n.commit, |n.log|) <= m'.commit
  }

  /** The follower has refused, and its next index is one lower. */
  ghost predicate Refused<V>(p: Plan<V>, y: At<V>, w: At<V>, f: nat) {
    && p.lead < |y.world.nodes| && f < |y.world.nodes| == |w.world.nodes| == |y.alive| && w.alive == y.alive[f := true]
    && w.world.nodes == y.world.nodes[f := w.world.nodes[f]][p.lead := w.world.nodes[p.lead]]
    && w.world.rpcs == y.world.rpcs && CallsAdvance(p, y.world, w.world)
    && var n, m, m' := y.world.nodes[p.lead], y.world.nodes[f], w.world.nodes[f];
       && m'.term == n.term && m.commit <= m'.commit <= |m'.log|
       && f < |n.nextIndex| == |n.matchIndex| && n.nextIndex[f] > 1
       && w.world.nodes[p.lead] == n.(nextIndex := n.nextIndex[f := n.nextIndex[f] - 1])
  }

  lemma Round<V(!new)>(p: Plan<V>, x: At<V>, y: At<V>, f: nat) returns (z: At<V>, accepted: bool)
    requires Reaches(p, x, y) && f in p.q - {p.lead} && Idle(p, y.world, f)
    requires Full(p, y.world.nodes[p.lead], f, y.alive)
    requires y.world.nodes[f].term <= y.world.nodes[p.lead].term && y.world.nodes[f].commit <= |y.world.nodes[f].log|
    ensures Reaches(p, x, z) && if accepted then CaughtUp(p, y, z, f) else Refused(p, y, z, f)
  {
    var n := y.world.nodes[p.lead];
    var r := RequestTo(p, n, f);
    Handled(y.world.nodes[f], r);
    accepted := HandleAppend(y.world.nodes[f], r).1.success;
    Taken(p, n, f, |y.world.nodes|, HandleAppend(y.world.nodes[f], r).1);
    z := Exchange(p, x, y, f);
  }

  /** Rounds go on until the follower accepts: each refusal lowers its next index. */
  lemma {:induction false} CatchUp<V(!new)>(p: Plan<V>, x: At<V>, y: At<V>, f: nat) returns (z: At<V>)
    requires Reaches(p, x, y) && f in p.q - {p.lead} && Idle(p, y.world, f)
    requires Full(p, y.world.nodes[p.lead], f, y.alive)
    requires y.world.nodes[f].term <= y.world.nodes[p.lead].term && y.world.nodes[f].commit <= |y.world.nodes[f].log|
    ensures Reaches(p, x, z) && CaughtUp(p, y, z, f)
    decreases y.world.nodes[p.lead].nextIndex[f]
  {
    var accepted;
    z, accepted := Round(p, x, y, f);
    if !accepted {
      var w := z;
      z := CatchUp(p, x, w, f);
      RefusedFirst(p, y, w, z, f);
    }
  }

  lemma RefusedFirst<V>(p: Plan<V>, y: At<V>, w: At<V>, z: At<V>, f: nat)
    requires f != p.lead && Refused(p, y, w, f) && CaughtUp(p, w, z, f)
    ensures CaughtUp(p, y, z, f)
  {}

  // ---------------------------------------------------------------- spreading an entry

  /** The leader has saved one entry of its term; the nodes of a set, itself included, are known to
      hold its log, and the entry is committed if and only if they are a majority. */
  ghost predicate Holding<V>(p: Plan<V>, n: Node<V>, size: nat, fed: set<nat>) {
    && n.role == Leader && n.pending == [] && 1 <= |n.log| == n.start && n.commit <= |n.log|
    && |n.nextIndex| == |n.matchIndex| == size && (forall f :: 0 <= f < size ==> 1 <= n.nextIndex[f] <= |n.log| + 1)
    && p.lead in fed && fed <= p.q
    && (forall f :: 0 <= f < size ==> n.matchIndex[f] == if f in fed then |n.log| else 0)
    && (n.commit == |n.log| <==> |fed| >= Majority(size))
  }

  /** The client's call for the entry waits for it to commit. */
  ghost predicate Waits<V>(p: Plan<V>, s: World<V>, id: nat) {
    p.lead < |s.nodes| && id < |s.calls| &&
    var n, c := s.nodes[p.lead], s.calls[id];
    && c.node == p.lead && c.term == n.term && c.index == |n.log| && c.value == p.value
    && |n.log| in n.waiting && n.waiting[|n.log|] == id
    && if n.commit < |n.log| then c.phase.Waiting? else c.phase.Woken? && c.phase.result.Some?
  }

  ghost predicate Spreading<V>(p: Plan<V>, s: World<V>, fed: set<nat>, id: nat) {
    && p.lead < |s.nodes| && Holding(p, s.nodes[p.lead], |s.nodes|, fed) && Waits(p, s, id)
    && (forall f :: f in p.q ==> f < |s.nodes| && s.nodes[f].term <= s.nodes[p.lead].term &&
                                 s.nodes[f].commit <= |s.nodes[f].log|)
    && (forall f :: 0 <= f < |s.nodes| ==> Idle(p, s, f))
  }

  /** The commit rule on match indexes that are the whole log or nothing. */
  lemma HeldCommit(matched: seq<nat>, commit: nat, last: nat, fed: set<nat>, majority: nat)
    requires commit <= last && 1 <= last && forall f :: f in fed ==> f < |matched|
    requires forall f :: 0 <= f < |matched| ==> matched[f] == if f in fed then last else 0
    ensures ScanCommit(matched, commit, last, last, majority) == if |fed| >= majority then last else commit
  {
    assert Holders(matched, last) == fed;
  }

  lemma FedHolding<V>(p: Plan<V>, n: Node<V>, n': Node<V>, size: nat, fed: set<nat>, f: nat)
    requires Holding(p, n, size, fed) && f in p.q && f < size && Confirms(n, n', f, size)
    requires forall j :: j in p.q ==> j < size
    ensures Holding(p, n', size, fed + {f})
  {
    SubsetSize(fed, fed + {f});
    HeldCommit(n'.matchIndex, n.commit, |n.log|, fed + {f}, Majority(size));
  }

  lemma FedWaits<V>(p: Plan<V>, y: At<V>, z: At<V>, fed: set<nat>, id: nat, f: nat)
    requires p.lead < |y.world.nodes| && Waits(p, y.world, id) && CaughtUp(p, y, z, f)
    requires Holding(p, y.world.nodes[p.lead], |y.world.nodes|, fed)
    requires Holding(p, z.world.nodes[p.lead], |z.world.nodes|, fed + {f})
    requires var n, n' := y.world.nodes[p.lead], z.world.nodes[p.lead]; n'.commit == n.commit || n'.commit == |n.log|
    ensures Waits(p, z.world, id)
  {
    assert z.world.calls[id] == FinishCall(y.world.calls[id], id, y.world.nodes[p.lead], z.world.nodes[p.lead]);
  }

  lemma FedSpreading<V>(p: Plan<V>, y: At<V>, z: At<V>, fed: set<nat>, id: nat, f: nat)
    requires Spreading(p, y.world, fed, id) && f in p.q - {p.lead} && CaughtUp(p, y, z, f)
    ensures Spreading(p, z.world, fed + {f}, id)
  {
    var n, n', size := y.world.nodes[p.lead], z.world.nodes[p.lead], |y.world.nodes|;
    FedHolding(p, n, n', size, fed, f);
    HeldCommit(n'.matchIndex, n.commit, |n.log|, fed + {f}, Majority(size));
    FedWaits(p, y, z, fed, id, f);
    forall j | 0 <= j < |z.world.nodes| ensures Idle(p, z.world, j) { assert Idle(p, y.world, j); }
  }

  /** One more follower holds the leader's log, and has heard of what is committed. */
  lemma FeedOne<V(!new)>(p: Plan<V>, x: At<V>, y: At<V>, fed: set<nat>, id: nat, f: nat) returns (z: At<V>)
    requires Reaches(p, x, y) && Spreading(p, y.world, fed, id) && f in p.q - {p.lead}
    requires Full(p, y.world.nodes[p.lead], f, y.alive)
    ensures Reaches(p, x, z) && Spreading(p, z.world, fed + {f}, id) && z.alive == y.alive[f := true]
    ensures z.world.nodes == y.world.nodes[f := z.world.nodes[f]][p.lead := z.world.nodes[p.lead]]
    ensures z.world.nodes[p.lead].log == y.world.nodes[p.lead].log
    ensures y.world.nodes[p.lead].commit <= z.world.nodes[f].commit
  {
    assert Idle(p, y.world, f);
    z := CatchUp(p, x, y, f);
    FedSpreading(p, y, z, fed, id, f);
  }

  /** The followers of the set are sent everything, whatever the leader's sessions learn of the majority. */
  ghost predicate Served<V>(p: Plan<V>, alive: seq<bool>, w: set<nat>) {
    p.spare ==> (forall f :: f in w ==> f == p.lead || IsMainNode(p.lead, |alive|, f)) || MissingMain(p, alive)
  }

  ghost predicate MissingMain<V>(p: Plan<V>, alive: seq<bool>) {
    exists d :: 0 <= d < |alive| && d !in p.q && IsMainNode(p.lead, |alive|, d) && !alive[d]
  }

  ghost predicate Settled<V(!new)>(p: Plan<V>, x: At<V>, y: At<V>, fed: set<nat>, id: nat) {
    Reaches(p, x, y) && Spreading(p, y.world, fed, id) && |fed| >= Majority(|y.alive|)
  }

  lemma FeedNext<V(!new)>(p: Plan<V>, x: At<V>, y: At<V>, fed: set<nat>, id: nat, w: set<nat>, f: nat)
      returns (z: At<V>)
    requires Reaches(p, x, y) && Spreading(p, y.world, fed, id) && w <= p.q && Served(p, y.alive, w)
    requires f in w && f !in fed
    ensures Reaches(p, x, z) && Spreading(p, z.world, fed + {f}, id) && Served(p, z.alive, w)
    ensures |fed + {f}| == |fed| + 1
  {
    z := FeedOne(p, x, y, fed, id, f);
    if MissingMain(p, y.alive) { StillMissing(p, y.alive, f); }
  }

  /** The leader brings nodes of the set up to date until they are a majority. */
  lemma {:induction false} Feed<V(!new)>(p: Plan<V>, x: At<V>, y: At<V>, fed: set<nat>, id: nat, w: set<nat>)
      returns (z: At<V>, more: set<nat>)
    requires Reaches(p, x, y) && Spreading(p, y.world, fed, id) && w <= p.q && Served(p, y.alive, w)
    requires |fed| < Majority(|y.alive|) <= |w| && fed <= w
    ensures Settled(p, x, z, more, id)
    decreases Majority(|y.alive|) - |fed|
  {
    if w <= fed { SubsetSize(w, fed); }
    var f :| f in w && f !in fed;
    z := FeedNext(p, x, y, fed, id, w, f);
    more := fed + {f};
    if |more| < Majority(|y.alive|) { z, more := Feed(p, x, z, more, id, w); }
  }

  lemma StillMissing<V>(p: Plan<V>, alive: seq<bool>, f: nat)
    requires MissingMain(p, alive) && f in p.q && f < |alive|
    ensures MissingMain(p, alive[f := true])
  {
    var d :| 0 <= d < |alive| && d !in p.q && IsMainNode(p.lead, |alive|, d) && !alive[d];
    assert !alive[f := true][d];
  }

  /** The nodes of the set have committed up to the index. */
  ghost predicate Informed<V>(s: World<V>, todo: set<nat>, index: nat) {
    forall f :: f in todo ==> f < |s.nodes| && index <= s.nodes[f].commit
  }

  lemma InformOne<V(!new)>(p: Plan<V>, x: At<V>, y: At<V>, fed: set<nat>, id: nat, done: set<nat>, f: nat)
      returns (z: At<V>)
    requires Settled(p, x, y, fed, id) && f in p.q - {p.lead} && p.lead !in done
    requires Informed(y.world, done, |y.world.nodes[p.lead].log|)
    ensures Settled(p, x, z, fed + {f}, id) && Informed(z.world, done + {f}, |z.world.nodes[p.lead].log|)
  {
    z := FeedOne(p, x, y, fed, id, f);
    SubsetSize(fed, fed + {f});
    OneMoreInformed(y.world, z.world, p.lead, done, f, |z.world.nodes[p.lead].log|);
  }

  lemma OneMoreInformed<V>(s: World<V>, s': World<V>, l: nat, done: set<nat>, f: nat, index: nat)
    requires l < |s.nodes| && f < |s.nodes| == |s'.nodes| && s'.nodes == s.nodes[f := s'.nodes[f]][l := s'.nodes[l]]
    requires Informed(s, done, index) && l !in done && index <= s'.nodes[f].commit
    ensures Informed(s', done + {f}, index)
  {}

  lemma OneOf(todo: set<nat>, done: set<nat>) returns (f: nat, rest: set<nat>)
    requires todo != {}
    ensures f in todo && rest <= todo && |rest| < |todo| && done + {f} + rest == done + todo
  {
    f :| f in todo;
    rest := todo - {f};
  }

  /** Once its log is committed the leader lets every node of the set know. */
  lemma {:induction false} Inform<V(!new)>(p: Plan<V>, x: At<V>, y: At<V>, fed: set<nat>, id: nat,
                                           todo: set<nat>, done: set<nat>) returns (z: At<V>, more: set<nat>)
    requires Settled(p, x, y, fed, id) && todo <= p.q - {p.lead} && p.lead !in done
    requires Informed(y.world, done, |y.world.nodes[p.lead].log|)
    ensures Settled(p, x, z, more, id) && Informed(z.world, done + todo, |z.world.nodes[p.lead].log|)
    decreases |todo|
  {
    if todo == {} {
      z, more := y, fed;
      assert done + todo == done;
    } else {
      var f, rest := OneOf(todo, done);
      var w := InformOne(p, x, y, fed, id, done, f);
      z, more := Inform(p, x, w, fed + {f}, id, rest, done + {f});
    }
  }

  // ---------------------------------------------------------------- the entry

  lemma OfferedNode<V>(p: Plan<V>, n: Node<V>, size: nat, id: nat)
    requires Elected(n, size) && n.commit <= |n.log| && p.lead in p.q && p.lead < size && size >= 2
    ensures var n' := Flush(Submit(n, p.lead, p.value, id), p.lead, size);
            && Holding(p, n', size, {p.lead}) && n'.term == n.term && n'.commit == n.commit && |n'.log| == |n.log| + 1
            && n'.waiting == n.waiting[|n'.log| := id]
  {
    var matched := n.matchIndex[p.lead := |n.log| + 1];
    assert Saved(Submit(n, p.lead, p.value, id), p.lead).matchIndex == matched;
    HeldCommit(matched, n.commit, |n.log| + 1, {p.lead}, Majority(size));
  }

  /** A new leader accepts the client's call and saves its entry. */
  lemma Offer<V(!new)>(p: Plan<V>, x: At<V>, y: At<V>) returns (z: At<V>)
    requires Reaches(p, x, y) && Elected(y.world.nodes[p.lead], |y.world.nodes|)
    requires forall f :: f in p.q ==> y.world.nodes[f].term <= y.world.nodes[p.lead].term &&
                                      y.world.nodes[f].commit <= |y.world.nodes[f].log|
    requires forall f :: Link(p.lead, y.world.nodes[p.lead].term, f) !in y.world.rpcs
    ensures Reaches(p, x, z) && Spreading(p, z.world, {p.lead}, |y.world.calls|)
  {
    var n, id := y.world.nodes[p.lead], |y.world.calls|;
    OfferedNode(p, n, |y.world.nodes|, id);
    var w := Go(p, x, y, Execute(p.lead, p.value), Opened(y.world, p.lead, p.value));
    z := Go(p, x, w, Write(p.lead), Cluster.Written(w.world, p.lead));
  }

  /** A call to a main node outside the majority fails, and the leader thinks the node dead. */
  lemma Miss<V(!new)>(p: Plan<V>, x: At<V>, y: At<V>, fed: set<nat>, id: nat, d: nat) returns (z: At<V>)
    requires Reaches(p, x, y) && Spreading(p, y.world, fed, id) && d < |y.alive| && d !in p.q && p.spare
    requires IsMainNode(p.lead, |y.alive|, d)
    ensures Reaches(p, x, z) && Spreading(p, z.world, fed, id) && MissingMain(p, z.alive)
  {
    var n, size := y.world.nodes[p.lead], |y.alive|;
    var link, last := Link(p.lead, n.term, d), LastSent(n, p.lead, size, d, y.alive);
    assert Idle(p, y.world, d);
    var w := Go(p, x, y, Send(p.lead, d, last), Shipped(y.world, p.lead, d, last, p.strip));
    z := Go(p, x, w, Lose(link), Lost(w.world, link));
    assert z.world.rpcs == y.world.rpcs;
    assert z.alive == y.alive[d := false];
    forall f | 0 <= f < |z.world.nodes| ensures Idle(p, z.world, f) { assert Idle(p, y.world, f); }
  }

  /** The followers that are to commit the entry with the leader, once it knows whom it cannot reach. */
  lemma Choose<V(!new)>(p: Plan<V>, x: At<V>, y: At<V>, fed: set<nat>, id: nat) returns (z: At<V>, w: set<nat>)
    requires Reaches(p, x, y) && Spreading(p, y.world, fed, id) && fed == {p.lead}
    ensures Reaches(p, x, z) && Spreading(p, z.world, fed, id) && fed <= w <= p.q && Served(p, z.alive, w)
    ensures |w| >= Majority(|z.alive|)
  {
    var size := |y.alive|;
    if d: nat :| p.spare && d < size && d !in p.q && IsMainNode(p.lead, size, d) {
      z := Miss(p, x, y, fed, id, d);
      w := p.q;
    } else {
      z := y;
      w := if p.spare then MainGroup(p.lead, size) else p.q;
      MainGroupIsMajority(p.lead, size);
    }
  }

  lemma Finish<V(!new)>(p: Plan<V>, x: At<V>, y: At<V>, fed: set<nat>, id: nat) returns (z: At<V>)
    requires Settled(p, x, y, fed, id)
    ensures Reaches(p, x, z) && id < |z.world.calls| && z.world.calls[id].phase.Committed?
    ensures z.world.calls[id].value == p.value && z.world.calls[id].index == |y.world.nodes[p.lead].log|
    ensures forall i :: 0 <= i < |y.world.nodes| ==>
              z.world.nodes[i].role == y.world.nodes[i].role && z.world.nodes[i].commit == y.world.nodes[i].commit
  {
    z := Go(p, x, y, Wake(id), Replied(y.world, id));
  }

  /** From any healthy state the nodes of a majority, hearing from each other, commit a new entry: its
      call is answered, and each of them has committed it. */
  lemma Commits<V(!new)>(p: Plan<V>, x: At<V>) returns (z: At<V>, id: nat)
    requires |x.world.nodes| == |x.alive| >= 2 && IsQuorum(|x.world.nodes|, p.q) && p.lead in p.q && Healthy(x.world)
    requires forall v :: v in p.q ==> NotAhead(x.world.nodes[v].log, x.world.nodes[p.lead].log)
    ensures Reaches(p, x, z) && id == |x.world.calls| < |z.world.calls|
    ensures z.world.calls[id].value == p.value && z.world.calls[id].phase.Committed?
    ensures Informed(z.world, p.q, z.world.calls[id].index)
  {
    var y := Elect(p, x);
    id := |x.world.calls|;
    var u, fed := Settle(p, x, y);
    z := Conclude(p, x, u, fed, id);
  }

  lemma Settle<V(!new)>(p: Plan<V>, x: At<V>, y: At<V>) returns (z: At<V>, fed: set<nat>)
    requires Reaches(p, x, y) && Elected(y.world.nodes[p.lead], |y.world.nodes|)
    requires forall f :: f in p.q ==> y.world.nodes[f].term <= y.world.nodes[p.lead].term &&
                                      y.world.nodes[f].commit <= |y.world.nodes[f].log|
    requires forall f :: Link(p.lead, y.world.nodes[p.lead].term, f) !in y.world.rpcs
    ensures Settled(p, x, z, fed, |y.world.calls|)
  {
    var id := |y.world.calls|;
    var u := Offer(p, x, y);
    var v, w := Choose(p, x, u, {p.lead}, id);
    z, fed := Feed(p, x, v, {p.lead}, id, w);
  }

  lemma Conclude<V(!new)>(p: Plan<V>, x: At<V>, y: At<V>, fed: set<nat>, id: nat) returns (z: At<V>)
    requires Settled(p, x, y, fed, id)
    ensures Reaches(p, x, z) && id < |z.world.calls|
    ensures z.world.calls[id].value == p.value && z.world.calls[id].phase.Committed?
    ensures Informed(z.world, p.q, z.world.calls[id].index)
  {
    var u, more := Inform(p, x, y, fed, id, p.q - {p.lead}, {});
    z := Finish(p, x, u, more, id);
    forall f | f in p.q ensures f < |z.world.nodes| && z.world.calls[id].index <= z.world.nodes[f].commit {
      if f != p.lead { assert f in {} + (p.q - {p.lead}); }
    }
  }
}
