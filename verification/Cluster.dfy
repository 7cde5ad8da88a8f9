/** The cluster: replicas, the calls in flight between them and the client calls, as a step function.

    Network: each leader session has at most one AppendEntries call outstanding, which is handled
    at most once; either half of it may be lost at any time, also after the leader is gone. Vote
    calls may be duplicated and delayed without bound. A crash keeps term, vote and log.
 */
module Cluster {
  import opened Entries
  import opened Replica

  /** The session of a leader of some term with one follower. */
  datatype Link = Link(leader: nat, term: nat, follower: nat)

  datatype Rpc<+V> =
    | Sent(request: AppendRequest<V>)
    | Answered(request: AppendRequest<V>, reply: AppendReply)

  datatype VoteAnswer = VoteAnswer(voter: nat, ballot: VoteRequest, reply: VoteReply)

  datatype Phase<+V> =
    | Waiting
    | Woken(result: Option<seq<V>>)
    | Committed(applied: seq<V>, at: nat)
    | Refused(at: nat)
    | Aborted

  /** A client call accepted by a leader. Its result is what the state machine had executed when
      it reached the call's entry; a deterministic machine's response is a function of that. */
  datatype Call<+V> = Call(node: nat, term: nat, index: nat, value: V, started: nat, phase: Phase<V>)

  datatype World<V> = World(
    nodes: seq<Node<V>>, rpcs: map<Link, Rpc<V>>,
    ballots: set<VoteRequest>, answers: set<VoteAnswer>, calls: seq<Call<V>>, now: nat)

  datatype Action<V> =
    | Timeout(node: nat)
    | AskVote(voter: nat, ballot: VoteRequest)
    | CountVote(answer: VoteAnswer)
    | Execute(node: nat, value: V)
    | Write(node: nat)
    | Send(node: nat, follower: nat, last: nat)
    | Deliver(link: Link)
    | Return(link: Link)
    | Lose(link: Link)
    | Crash(node: nat)
    | Wake(call: nat)

  // ---------------------------------------------------------------- client calls

  function StopCall<V>(c: Call<V>, node: nat): Call<V> {
    if c.node == node && c.phase.Waiting? then c.(phase := Woken(None)) else c
  }

  /** Stepping down wakes every call waiting at the node. */
  function StopCalls<V>(calls: seq<Call<V>>, node: nat): (r: seq<Call<V>>)
    ensures |r| == |calls|
    ensures forall k :: 0 <= k < |calls| ==> r[k] == StopCall(calls[k], node)
  {
    seq(|calls|, k requires 0 <= k < |calls| => StopCall(calls[k], node))
  }

  function FinishCall<V>(c: Call<V>, id: nat, before: Node<V>, after: Node<V>): Call<V> {
    if c.index in before.waiting && before.waiting[c.index] == id &&
       before.commit < c.index <= after.commit && (c.phase.Waiting? || c.phase.Woken?)
    then c.(phase := Woken(Some(Take(after.applied, c.index)))) else c
  }

  /** Committing wakes the calls waiting for the committed indexes, with their results. */
  function FinishCalls<V>(calls: seq<Call<V>>, before: Node<V>, after: Node<V>): (r: seq<Call<V>>)
    ensures |r| == |calls|
    ensures forall k :: 0 <= k < |calls| ==> r[k] == FinishCall(calls[k], k, before, after)
  {
    seq(|calls|, k requires 0 <= k < |calls| => FinishCall(calls[k], k, before, after))
  }

  function AbortCall<V>(c: Call<V>, node: nat): Call<V> {
    if c.node == node && (c.phase.Waiting? || c.phase.Woken?) then c.(phase := Aborted) else c
  }

  function AbortCalls<V>(calls: seq<Call<V>>, node: nat): (r: seq<Call<V>>)
    ensures |r| == |calls|
    ensures forall k :: 0 <= k < |calls| ==> r[k] == AbortCall(calls[k], node)
  {
    seq(|calls|, k requires 0 <= k < |calls| => AbortCall(calls[k], node))
  }

  /** The reply of a woken call: committed if the node is still in the call's term. */
  function ReplyPhase<V>(c: Call<V>, term: nat, now: nat): Phase<V>
    requires c.phase.Woken?
  {
    if term != c.term then Refused(now)
    else Committed(if c.phase.result.Some? then c.phase.result.value else [], now)
  }

  // ---------------------------------------------------------------- steps

  /** Replace a node; if it stepped down, its waiting calls wake. */
  function Become<V>(s: World<V>, i: nat, n: Node<V>): World<V>
    requires i < |s.nodes|
  {
    s.(nodes := s.nodes[i := n],
       calls := if s.nodes[i].role == Leader && n.role != Leader then StopCalls(s.calls, i) else s.calls)
  }

  /** Replace a leader that may have committed; the calls it committed wake. */
  function Advance<V>(s: World<V>, i: nat, n: Node<V>): World<V>
    requires i < |s.nodes|
  {
    s.(nodes := s.nodes[i := n], calls := FinishCalls(s.calls, s.nodes[i], n))
  }

  predicate Leads<V>(s: World<V>, i: nat) {
    i < |s.nodes| && s.nodes[i].role == Leader && Shaped(s.nodes[i], |s.nodes|)
  }

  /** A follower's election timer fires, or a candidate's election runs out. */
  predicate CanTimeout<V>(s: World<V>, i: nat) { i < |s.nodes| && s.nodes[i].role != Leader }

  function TimedOut<V>(s: World<V>, i: nat): World<V>
    requires CanTimeout(s, i)
  {
    var n := StartElection(s.nodes[i], i);
    s.(nodes := s.nodes[i := n], ballots := s.ballots + {Ballot(n, i)}, now := s.now + 1)
  }

  predicate CanAsk<V>(s: World<V>, v: nat, ballot: VoteRequest) {
    v < |s.nodes| && v != ballot.candidate && ballot in s.ballots
  }

  function Asked<V>(s: World<V>, v: nat, ballot: VoteRequest): World<V>
    requires CanAsk(s, v, ballot)
  {
    var (n, reply) := HandleVote(s.nodes[v], ballot);
    Become(s, v, n).(answers := s.answers + {VoteAnswer(v, ballot, reply)}, now := s.now + 1)
  }

  predicate CanCount<V>(s: World<V>, answer: VoteAnswer) {
    answer in s.answers && answer.ballot.candidate < |s.nodes|
  }

  function Counted<V>(s: World<V>, answer: VoteAnswer): World<V>
    requires CanCount(s, answer)
  {
    var i := answer.ballot.candidate;
    Become(s, i, HandleVoteReply(s.nodes[i], |s.nodes|, answer.voter, answer.ballot.term, answer.reply))
      .(now := s.now + 1)
  }

  /** A leader accepts a client call: its entry is pending, and its index is reserved. */
  function Opened<V>(s: World<V>, i: nat, value: V): World<V>
    requires Leads(s, i)
  {
    var n := s.nodes[i];
    s.(nodes := s.nodes[i := Submit(n, i, value, |s.calls|)],
       calls := s.calls + [Call(i, n.term, n.nextIndex[i], value, s.now, Waiting)], now := s.now + 1)
  }

  /** The leader's main session saves the pending entries. */
  function Written<V>(s: World<V>, i: nat): World<V>
    requires Leads(s, i)
  {
    Advance(s, i, Flush(s.nodes[i], i, |s.nodes|)).(now := s.now + 1)
  }

  predicate CanSend<V>(s: World<V>, i: nat, f: nat, last: nat) {
    Leads(s, i) && f < |s.nodes| && f != i && Link(i, s.nodes[i].term, f) !in s.rpcs &&
    var n := s.nodes[i];
    var next := n.nextIndex[f];
    1 <= next <= last + 1 && next - 1 <= |n.log| && last <= |n.log| + |n.pending|
  }

  function Requested<V>(s: World<V>, i: nat, f: nat, last: nat): World<V>
    requires CanSend(s, i, f, last)
  {
    var n := s.nodes[i];
    s.(rpcs := s.rpcs[Link(i, n.term, f) := Sent(MakeRequest(n, i, n.nextIndex[f], last))], now := s.now + 1)
  }

  predicate CanDeliver<V>(s: World<V>, link: Link) {
    link in s.rpcs && s.rpcs[link].Sent? && link.follower < |s.nodes|
  }

  function Delivered<V>(s: World<V>, link: Link): World<V>
    requires CanDeliver(s, link)
  {
    var request := s.rpcs[link].request;
    var (n, reply) := HandleAppend(s.nodes[link.follower], request);
    Become(s, link.follower, n).(rpcs := s.rpcs[link := Answered(request, reply)], now := s.now + 1)
  }

  /** The step from s to s' delivers the call on the link, and the follower accepts it. */
  ghost predicate Accepts<V>(s: World<V>, s': World<V>, link: Link) {
    CanDeliver(s, link) && s' == Delivered(s, link) && s'.rpcs[link].reply.success
  }

  predicate CanReturn<V>(s: World<V>, link: Link) {
    link in s.rpcs && s.rpcs[link].Answered? && Leads(s, link.leader) && link.follower < |s.nodes| &&
    s.nodes[link.leader].term == link.term
  }

  function Returned<V>(s: World<V>, link: Link): World<V>
    requires CanReturn(s, link)
  {
    var n := s.nodes[link.leader];
    var n' := HandleAppendReply(n, |s.nodes|, link.follower, s.rpcs[link].request, s.rpcs[link].reply);
    (if n'.role == Leader then Advance(s, link.leader, n') else Become(s, link.leader, n'))
      .(rpcs := s.rpcs - {link}, now := s.now + 1)
  }

  /** A call is lost, or times out and is cancelled. */
  function Lost<V>(s: World<V>, link: Link): World<V> { s.(rpcs := s.rpcs - {link}, now := s.now + 1) }

  function Crashed<V>(s: World<V>, i: nat): World<V>
    requires i < |s.nodes|
  {
    var n := s.nodes[i];
    s.(nodes := s.nodes[i := Restarted(n.term, n.votedFor, n.log)], calls := AbortCalls(s.calls, i),
       now := s.now + 1)
  }

  predicate CanWake<V>(s: World<V>, id: nat) {
    id < |s.calls| && s.calls[id].phase.Woken? && s.calls[id].node < |s.nodes|
  }

  /** A woken client call replies. */
  function Replied<V>(s: World<V>, id: nat): World<V>
    requires CanWake(s, id)
  {
    var c := s.calls[id];
    var n := s.nodes[c.node];
    s.(nodes := s.nodes[c.node := n.(waiting := n.waiting - {c.index})],
       calls := s.calls[id := c.(phase := ReplyPhase(c, n.term, s.now))], now := s.now + 1)
  }

  predicate Enabled<V>(s: World<V>, a: Action<V>) {
    match a
    case Timeout(i) => CanTimeout(s, i)
    case AskVote(v, ballot) => CanAsk(s, v, ballot)
    case CountVote(answer) => CanCount(s, answer)
    case Execute(i, _) => Leads(s, i)
    case Write(i) => Leads(s, i)
    case Send(i, f, last) => CanSend(s, i, f, last)
    case Deliver(link) => CanDeliver(s, link)
    case Return(link) => CanReturn(s, link)
    case Lose(link) => link in s.rpcs
    case Crash(i) => i < |s.nodes|
    case Wake(id) => CanWake(s, id)
  }

  function Next<V>(s: World<V>, a: Action<V>): World<V>
    requires Enabled(s, a)
  {
    match a
    case Timeout(i) => TimedOut(s, i)
    case AskVote(v, ballot) => Asked(s, v, ballot)
    case CountVote(answer) => Counted(s, answer)
    case Execute(i, value) => Opened(s, i, value)
    case Write(i) => Written(s, i)
    case Send(i, f, last) => Requested(s, i, f, last)
    case Deliver(link) => Delivered(s, link)
    case Return(link) => Returned(s, link)
    case Lose(link) => Lost(s, link)
    case Crash(i) => Crashed(s, i)
    case Wake(id) => Replied(s, id)
  }

  function Init<V>(size: nat): World<V> {
    World(seq(size, _ => Restarted(0, None, [])), map[], {}, {}, [], 0)
  }

  /** worlds is a run of a cluster of the given size, driven by actions. */
  ghost predicate IsRun<V(!new)>(size: nat, worlds: seq<World<V>>, actions: seq<Action<V>>) {
    |worlds| == |actions| + 1 && worlds[0] == Init(size) &&
    forall i :: 0 <= i < |actions| ==> Enabled(worlds[i], actions[i]) && worlds[i + 1] == Next(worlds[i], actions[i])
  }
}
