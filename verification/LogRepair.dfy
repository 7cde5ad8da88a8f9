/** The session of a leader with one follower, round by round, until the follower accepts. */
module LogRepair {
  import opened Entries
  import opened Replica
  import opened Cluster
  import opened Safety

  /** The follower is not ahead of the leader's term, where the logs meet they are the same below,
      and the leader has what the follower committed. */
  ghost predicate Repairable(leader: Node<Value>, follower: Node<Value>) {
    var full := leader.log + leader.pending;
    && follower.term <= leader.term && follower.commit <= |follower.log| && follower.commit <= |full|
    && follower.log[..follower.commit] == full[..follower.commit]
    && forall q: nat {:trigger SameBelow(follower.log, full, q)} :: SameBelow(follower.log, full, q)
  }

  /** Where the two logs meet they are the same below. */
  ghost predicate SameBelow(a: Log, b: Log, q: nat) { Matches(a, b, q) ==> a[..q] == b[..q] }

  /** A previous index at which the follower accepts. */
  ghost predicate Meets(leader: Node<Value>, follower: Node<Value>, prev: nat) {
    prev == 0 || Matches(follower.log, leader.log, prev)
  }

  /** The request carries the leader's whole suffix from the next index. */
  ghost predicate Asks(request: AppendRequest<Value>, leader: Node<Value>, next: nat) {
    && 1 <= next <= |leader.log| + 1 && request.term == leader.term && request.prevIndex == next - 1
    && request.prevTerm == (if next == 1 then 0 else leader.log[next - 2].term)
    && request.entries == (leader.log + leader.pending)[next - 1..]
  }

  lemma Refused(leader: Node<Value>, follower: Node<Value>, request: AppendRequest<Value>)
    requires request.term == leader.term && follower.term <= leader.term && !LogMatches(follower.log, request)
    requires request.prevIndex != 0 || request.prevTerm == 0
    ensures var (after, reply) := HandleAppend(follower, request);
            && !reply.success && reply.term <= leader.term && after.term == leader.term
            && AppendChecks(follower, request)
            && after.log == follower.log && after.commit == follower.commit
  {}

  lemma Granted(full: Log, follower: Node<Value>, request: AppendRequest<Value>)
    requires follower.term <= request.term && LogMatches(follower.log, request)
    requires request.prevIndex != 0 || request.prevTerm == 0
    requires Stored(follower.log, follower.commit, request) == full
    requires forall k :: request.prevIndex <= k < follower.commit && k - request.prevIndex < |request.entries| ==>
               SameThere(follower.log, request, k)
    ensures var (after, reply) := HandleAppend(follower, request);
            && reply.success && reply.term <= request.term && after.term == request.term && after.log == full
            && AppendChecks(follower, request)
  {}

  /** A refusal leaves the log alone; an acceptance makes it the leader's, unsaved entries included. */
  lemma Answer(leader: Node<Value>, follower: Node<Value>, next: nat, request: AppendRequest<Value>)
    requires Repairable(leader, follower) && Asks(request, leader, next)
    ensures var (after, reply) := HandleAppend(follower, request);
            && reply.term <= leader.term && after.term == leader.term && AppendChecks(follower, request)
            && (reply.success <==> Meets(leader, follower, next - 1))
            && (reply.success ==> after.log == leader.log + leader.pending)
            && (!reply.success ==> after.log == follower.log && after.commit == follower.commit)
  {
    assert LogMatches(follower.log, request) <==> Meets(leader, follower, next - 1);
    if Meets(leader, follower, next - 1) {
      var full := leader.log + leader.pending;
      assert SameBelow(follower.log, full, next - 1);
      AcceptedLog(full, follower.log, follower.commit, request);
      Granted(full, follower, request);
    } else {
      Refused(leader, follower, request);
    }
  }

  lemma AcceptedLog(full: Log, log: Log, commit: nat, request: AppendRequest<Value>)
    requires request.prevIndex <= |full| && request.prevIndex <= |log|
    requires log[..request.prevIndex] == full[..request.prevIndex]
    requires commit <= |log| && commit <= |full| && log[..commit] == full[..commit]
    requires request.entries == full[request.prevIndex..]
    ensures Stored(log, commit, request) == full
    ensures forall k :: request.prevIndex <= k < commit && k - request.prevIndex < |request.entries| ==>
              SameThere(log, request, k)
  {
    var keep := Max(request.prevIndex, commit);
    assert full == full[..keep] + full[keep..];
    forall k | request.prevIndex <= k < commit ensures log[k] == full[k] {
      assert log[..commit][k] == full[..commit][k];
    }
  }

  /** The leader has only moved the follower's next index. */
  function Probing(leader: Node<Value>, f: nat, next: nat): Node<Value>
    requires f < |leader.nextIndex|
  {
    leader.(nextIndex := leader.nextIndex[f := next])
  }

  /** The leader knows that the follower has all k entries. */
  function CaughtUp(leader: Node<Value>, size: nat, f: nat, k: nat): Node<Value>
    requires Shaped(leader, size) && f < size
  {
    UpdateCommitIndex(leader.(matchIndex := leader.matchIndex[f := k], nextIndex := leader.nextIndex[f := k + 1]), size)
  }

  /** What the leader makes of the answer. */
  lemma Answered(leader: Node<Value>, size: nat, f: nat, next: nat, request: AppendRequest<Value>, reply: AppendReply)
    requires Shaped(leader, size) && f < size && 1 <= next <= |leader.log| + 1 && reply.term <= leader.term
    requires request.prevIndex == next - 1 && next - 1 + |request.entries| == |leader.log| + |leader.pending|
    ensures var probing' := HandleAppendReply(Probing(leader, f, next), size, f, request, reply);
            && (reply.success ==> probing' == CaughtUp(leader, size, f, |leader.log| + |leader.pending|))
            && (!reply.success ==> probing' == Probing(leader, f, next - 1))
  {
    var k := next + |request.entries|;
    assert leader.nextIndex[f := next][f := k] == leader.nextIndex[f := k];
    assert leader.nextIndex[f := next][f := next - 1] == leader.nextIndex[f := next - 1];
  }

  lemma ProbingAsks(leader: Node<Value>, me: nat, f: nat, next: nat)
    requires f < |leader.nextIndex| && 1 <= next <= |leader.log| + 1
    ensures var probing := Probing(leader, f, next);
            Asks(MakeRequest(probing, me, next, |probing.log| + |probing.pending|), leader, next)
  {
    var full := leader.log + leader.pending;
    assert full[next - 1..|full|] == full[next - 1..];
  }

  /** What one round of the session does: it succeeds exactly where the logs meet; then the follower
      has the leader's log and the leader knows it; otherwise only the next index goes down. */
  ghost predicate RoundDone(leader: Node<Value>, size: nat, f: nat, next: nat, follower: Node<Value>,
                            probing': Node<Value>, follower': Node<Value>, accepted: bool)
    requires Shaped(leader, size) && f < size && 1 <= next
  {
    && (accepted <==> Meets(leader, follower, next - 1))
    && (accepted ==> follower'.log == leader.log + leader.pending && follower'.term == leader.term &&
                     probing' == CaughtUp(leader, size, f, |follower'.log|))
    && (!accepted ==> probing' == Probing(leader, f, next - 1) && follower'.log == follower.log &&
                      Repairable(leader, follower'))
  }

  lemma Round(leader: Node<Value>, size: nat, f: nat, next: nat, follower: Node<Value>, request: AppendRequest<Value>)
    requires Repairable(leader, follower) && Shaped(leader, size) && f < size && Asks(request, leader, next)
    ensures var (after, reply) := HandleAppend(follower, request);
            var probing' := HandleAppendReply(Probing(leader, f, next), size, f, request, reply);
            RoundDone(leader, size, f, next, follower, probing', after, reply.success)
  {
    Answer(leader, follower, next, request);
    Answered(leader, size, f, next, request, HandleAppend(follower, request).1);
  }

  /** One call of the session and its answer. */
  method SessionRound(ghost leader: Node<Value>, me: nat, size: nat, f: nat, ghost next: nat,
                      probing: Node<Value>, follower: Node<Value>)
    returns (probing': Node<Value>, follower': Node<Value>, accepted: bool)
    requires Repairable(leader, follower) && Shaped(leader, size) && f < size && 1 <= next <= |leader.log| + 1
    requires probing == Probing(leader, f, next)
    ensures RoundDone(leader, size, f, next, follower, probing', follower', accepted)
  {
    ProbingAsks(leader, me, f, next);
    var request := MakeRequest(probing, me, probing.nextIndex[f], |probing.log| + |probing.pending|);
    probing', follower', accepted := Exchange(leader, size, f, next, probing, follower, request);
  }

  /** The follower handles the request, and the leader its answer. */
  method Exchange(ghost leader: Node<Value>, size: nat, f: nat, ghost next: nat,
                  probing: Node<Value>, follower: Node<Value>, request: AppendRequest<Value>)
    returns (probing': Node<Value>, follower': Node<Value>, accepted: bool)
    requires Repairable(leader, follower) && Shaped(leader, size) && f < size && Asks(request, leader, next)
    requires probing == Probing(leader, f, next)
    ensures RoundDone(leader, size, f, next, follower, probing', follower', accepted)
  {
    Round(leader, size, f, next, follower, request);
    var (after, reply) := HandleAppend(follower, request);
    probing', follower', accepted := HandleAppendReply(probing, size, f, request, reply), after, reply.success;
  }

  /** The rounds of the session up to the first acceptance: next index goes down by one each round,
      never below 1, to the highest index at which the logs meet. */
  method Repair(leader: Node<Value>, me: nat, size: nat, f: nat, follower: Node<Value>)
    returns (leader': Node<Value>, follower': Node<Value>, rejections: nat)
    requires Repairable(leader, follower) && Shaped(leader, size) && f < size
    requires 1 <= leader.nextIndex[f] <= |leader.log| + 1
    ensures rejections < leader.nextIndex[f]
    ensures Meets(leader, follower, leader.nextIndex[f] - 1 - rejections)
    ensures forall q: nat :: leader.nextIndex[f] - 1 - rejections < q < leader.nextIndex[f] ==>
              !Meets(leader, follower, q)
    ensures follower'.log == leader.log + leader.pending && follower'.term == leader.term
    ensures leader' == CaughtUp(leader, size, f, |follower'.log|)
  {
    var next := leader.nextIndex[f];
    leader', follower', rejections := leader, follower, 0;
    assert leader.nextIndex[f := next] == leader.nextIndex;
    while true
      invariant 1 <= next == leader.nextIndex[f] - rejections
      invariant leader' == Probing(leader, f, next) && follower'.log == follower.log && Repairable(leader, follower')
      invariant forall q: nat :: next - 1 < q < leader.nextIndex[f] ==> !Meets(leader, follower, q)
      decreases next
    {
      var accepted;
      leader', follower', accepted := SessionRound(leader, me, size, f, next, leader', follower');
      if accepted {
        return;
      }
      next, rejections := next - 1, rejections + 1;
    }
  }

  /** In every run, whenever a session can send, its leader and its follower meet all hypotheses of
      Repair, unless the follower is ahead of the leader's term: whatever was lost before, and also
      when the follower is itself a leader of an earlier term. */
  lemma AlwaysRepairable(size: nat, worlds: seq<World<Value>>, actions: seq<Action<Value>>, i: nat, l: nat, f: nat,
                         last: nat)
    requires IsRun(size, worlds, actions) && i < |worlds| && CanSend(worlds[i], l, f, last)
    requires worlds[i].nodes[f].term <= worlds[i].nodes[l].term
    ensures var leader, follower := worlds[i].nodes[l], worlds[i].nodes[f];
            && Repairable(leader, follower) && Shaped(leader, |worlds[i].nodes|)
            && f < |worlds[i].nodes| && 1 <= leader.nextIndex[f] <= |leader.log| + 1
  {
    var leader, follower := worlds[i].nodes[l], worlds[i].nodes[f];
    LeaderCompleteness(size, worlds, actions, i, i, f, l);
    forall q: nat ensures SameBelow(follower.log, leader.log + leader.pending, q) {
      if Matches(follower.log, leader.log + leader.pending, q) {
        LogMatching(size, worlds, actions, i, i, f, l, q);
        assert FullLog(follower)[..q] == follower.log[..q];
      }
    }
  }
}
