/** One replica: its state and what each handler does to it, as functions.

    The functions never look inside a value, so they serve both logs: Raft's, whose values are
    client requests, and Metamorphosis', whose values are messages that may have lost their payload.
 */
module Replica {
  import opened Entries

  datatype Role = Leader | Follower | Candidate

  datatype AppendRequest<+V> = AppendRequest(
    term: nat, leader: nat, prevIndex: nat, prevTerm: nat, entries: seq<Entry<V>>, leaderCommit: nat)

  datatype AppendReply = AppendReply(term: nat, success: bool)

  datatype VoteRequest = VoteRequest(term: nat, candidate: nat, lastIndex: nat, lastTerm: nat)

  datatype VoteReply = VoteReply(term: nat, granted: bool)

  /** term, votedFor and log are persistent, the rest is lost in a crash. applied lists what the
      state machine has executed since start-up; waiting maps a log index to the client call
      waiting for it. */
  datatype Node<+V> = Node(
    term: nat, votedFor: Option<nat>, log: seq<Entry<V>>,
    role: Role, commit: nat, applied: seq<V>, votes: set<nat>,
    pending: seq<Entry<V>>, start: nat, nextIndex: seq<nat>, matchIndex: seq<nat>,
    waiting: map<nat, nat>)

  function Restarted<V>(term: nat, votedFor: Option<nat>, log: seq<Entry<V>>): Node<V> {
    Node(term, votedFor, log, Follower, 0, [], {}, [], 0, [], [], map[])
  }

  function Majority(size: nat): nat { size / 2 + 1 }

  // ---------------------------------------------------------------- terms and elections

  function UpdateTerm<V>(n: Node<V>, term: nat, votedFor: Option<nat>): Node<V> {
    n.(term := term, votedFor := votedFor)
  }

  /** Follow a leader or candidate of the given term. */
  function JoinTerm<V>(n: Node<V>, term: nat): Node<V> {
    if term > n.term then UpdateTerm(n, term, None).(role := Follower) else n
  }

  function StartElection<V>(n: Node<V>, me: nat): Node<V> {
    UpdateTerm(n, n.term + 1, Some(me)).(role := Candidate, votes := {me})
  }

  function Ballot<V>(n: Node<V>, me: nat): VoteRequest {
    VoteRequest(n.term, me, |n.log|, LastTerm(n.log))
  }

  predicate GrantsVote<V>(n: Node<V>, request: VoteRequest) {
    n.votedFor == Some(request.candidate) ||
    (n.votedFor == None &&
     (LastTerm(n.log) < request.lastTerm ||
      (LastTerm(n.log) == request.lastTerm && |n.log| <= request.lastIndex)))
  }

  function HandleVote<V>(n: Node<V>, request: VoteRequest): (Node<V>, VoteReply) {
    if request.term < n.term then (n, VoteReply(n.term, false)) else
    var joined := JoinTerm(n, request.term);
    if GrantsVote(joined, request)
    then (joined.(votedFor := Some(request.candidate)), VoteReply(n.term, true))
    else (joined, VoteReply(n.term, false))
  }

  function Repeat(size: nat, k: nat): seq<nat> { seq(size, _ => k) }

  function BecomeLeader<V>(n: Node<V>, size: nat): Node<V> {
    n.(role := Leader, pending := [], start := |n.log| + 1,
       nextIndex := Repeat(size, |n.log| + 1), matchIndex := Repeat(size, 0))
  }

  function HandleVoteReply<V>(n: Node<V>, size: nat, voter: nat, ballotTerm: nat, reply: VoteReply): Node<V> {
    if n.term < reply.term then UpdateTerm(n, reply.term, None).(role := Follower)
    else if !reply.granted || n.term != ballotTerm || n.role != Candidate || voter in n.votes then n
    else
      var counted := n.(votes := n.votes + {voter});
      if |counted.votes| == Majority(size) then BecomeLeader(counted, size) else counted
  }

  // ---------------------------------------------------------------- replication

  function AdvanceCommit<V>(n: Node<V>, index: nat): Node<V> {
    n.(commit := index, applied := n.applied + Values(Skip(Take(n.log, index), n.commit)))
  }

  predicate LogMatches<V>(log: seq<Entry<V>>, request: AppendRequest<V>) {
    request.prevIndex <= |log| &&
    (request.prevIndex == 0 || log[request.prevIndex - 1].term == request.prevTerm)
  }

  /** The whole tail above the previous and the committed index makes way for the new entries. */
  function Stored<V>(log: seq<Entry<V>>, commit: nat, request: AppendRequest<V>): seq<Entry<V>> {
    var keep := Max(request.prevIndex, commit);
    Take(log, keep) + Skip(request.entries, keep - request.prevIndex)
  }

  function HandleAppend<V>(n: Node<V>, request: AppendRequest<V>): (Node<V>, AppendReply) {
    if request.term < n.term then (n, AppendReply(n.term, false)) else
    var joined := JoinTerm(n.(role := Follower), request.term);
    if !LogMatches(n.log, request) then (joined, AppendReply(n.term, false)) else
    var stored := joined.(log := Stored(n.log, n.commit, request));
    (AdvanceCommit(stored, Max(n.commit, Min(request.leaderCommit, |stored.log|))), AppendReply(n.term, true))
  }

  /** The internal checks of the handler: no previous term without a previous entry, and what the
      leader sends of the committed log is what is already there. */
  predicate AppendChecks<V(==)>(n: Node<V>, request: AppendRequest<V>) {
    request.term < n.term ||
    ((request.prevIndex != 0 || request.prevTerm == 0) &&
     (LogMatches(n.log, request) ==>
        forall k {:trigger SameThere(n.log, request, k)} ::
          request.prevIndex <= k < n.commit && k - request.prevIndex < |request.entries| ==>
            SameThere(n.log, request, k)))
  }

  predicate SameThere<V(==)>(log: seq<Entry<V>>, request: AppendRequest<V>, k: int) {
    request.prevIndex <= k < |log| && k - request.prevIndex < |request.entries| &&
    request.entries[k - request.prevIndex] == log[k]
  }

  // ---------------------------------------------------------------- leadership

  predicate Shaped<V>(n: Node<V>, size: nat) {
    |n.nextIndex| == size && |n.matchIndex| == size
  }

  function Submit<V>(n: Node<V>, me: nat, value: V, call: nat): Node<V>
    requires me < |n.nextIndex|
  {
    n.(pending := n.pending + [Entry(n.term, value)],
       nextIndex := n.nextIndex[me := n.nextIndex[me] + 1],
       waiting := n.waiting[n.nextIndex[me] := call])
  }

  function Holders(matchIndex: seq<nat>, index: nat): set<nat> {
    set j: nat | j < |matchIndex| && matchIndex[j] >= index
  }

  /** The highest index in (commit, index], not below start, held by a majority; else commit. */
  function ScanCommit(matchIndex: seq<nat>, commit: nat, start: nat, index: nat, majority: nat): nat {
    if index > commit && index >= start then
      if |Holders(matchIndex, index)| >= majority then index
      else ScanCommit(matchIndex, commit, start, index - 1, majority)
    else commit
  }

  function UpdateCommitIndex<V>(n: Node<V>, size: nat): Node<V> {
    AdvanceCommit(n, ScanCommit(n.matchIndex, n.commit, n.start, |n.log|, Majority(size)))
  }

  function Saved<V>(n: Node<V>, me: nat): Node<V>
    requires me < |n.matchIndex|
  {
    n.(log := n.log + n.pending, matchIndex := n.matchIndex[me := |n.log| + |n.pending|], pending := [])
  }

  function Flush<V>(n: Node<V>, me: nat, size: nat): Node<V>
    requires me < |n.matchIndex|
  {
    UpdateCommitIndex(Saved(n, me), size)
  }

  /** The entries from the follower's next index up to last, saved or not. */
  function MakeRequest<V>(n: Node<V>, me: nat, next: nat, last: nat): AppendRequest<V>
    requires 1 <= next <= last + 1 && next - 1 <= |n.log| && last <= |n.log| + |n.pending|
  {
    AppendRequest(n.term, me, next - 1, if next == 1 then 0 else n.log[next - 2].term,
                  (n.log + n.pending)[next - 1..last], n.commit)
  }

  function Confirmed<V>(n: Node<V>, follower: nat, request: AppendRequest<V>): Node<V>
    requires follower < |n.nextIndex| && follower < |n.matchIndex|
  {
    n.(matchIndex := n.matchIndex[follower := request.prevIndex + |request.entries|],
       nextIndex := n.nextIndex[follower := n.nextIndex[follower] + |request.entries|])
  }

  function HandleAppendReply<V>(n: Node<V>, size: nat, follower: nat,
                                request: AppendRequest<V>, reply: AppendReply): Node<V>
    requires follower < |n.nextIndex| && follower < |n.matchIndex|
  {
    if reply.term > n.term then UpdateTerm(n, reply.term, None).(role := Follower)
    else if !reply.success then
      n.(nextIndex := n.nextIndex[follower := if n.nextIndex[follower] > 0 then n.nextIndex[follower] - 1 else 0])
    else UpdateCommitIndex(Confirmed(n, follower, request), size)
  }
}
