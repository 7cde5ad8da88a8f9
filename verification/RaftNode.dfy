/** The Raft replica as an object whose handlers change its fields and its storage in place.

    Each handler is proved to do what the corresponding function of Replica says, so that what is
    proved of every run of the cluster holds of these handlers. A failed internal check would abort
    the program; the checks appear as assertions, and what they need as preconditions that hold in
    every run of the Raft cluster (the ChecksHold lemmas of Raft).
 */
module RaftNode {
  import opened Entries
  import opened Replica
  import opened ExactlyOnce
  import opened Storage
  import opened CommitIndex

  type LogEntry = Entry<Request>

  datatype ExecuteReply = NotALeader | Commited(result: string)

  /** What has run once the entries in (from, to] have. */
  ghost function Ran(before: seq<Request>, log: seq<LogEntry>, from: nat, to: nat): (r: seq<Request>)
    requires from <= to <= |log|
    ensures |r| == |before| + to - from
  {
    before + Values(log[from..to])
  }

  lemma RanNext(before: seq<Request>, log: seq<LogEntry>, from: nat, to: nat)
    requires from < to <= |log|
    ensures Ran(before, log, from, to) == Ran(before, log, from, to - 1) + [log[to - 1].value]
  {
    assert log[from..to] == log[from..to - 1] + [log[to - 1]];
  }

  /** The result kept for an index is the exactly-once machine's response to the log up to there. */
  ghost predicate Responses(results: map<nat, string>, machine: Machine, applied: seq<Request>) {
    forall k {:trigger ResponseAt(results, machine, applied, k)} ::
      k in results ==> ResponseAt(results, machine, applied, k)
  }

  ghost predicate ResponseAt(results: map<nat, string>, machine: Machine, applied: seq<Request>, k: nat) {
    k in results && 1 <= k <= |applied| && results[k] == Response(machine, applied[..k])
  }

  lemma ResponsesStay(results: map<nat, string>, machine: Machine, applied: seq<Request>, applied': seq<Request>)
    requires Responses(results, machine, applied) && applied <= applied'
    ensures Responses(results, machine, applied')
  {
    forall k | k in results ensures ResponseAt(results, machine, applied', k) {
      assert ResponseAt(results, machine, applied, k);
      assert applied'[..k] == applied[..k];
    }
  }

  lemma ResponsesPut(results: map<nat, string>, machine: Machine, applied: seq<Request>)
    requires Responses(results, machine, applied) && applied != []
    ensures Responses(results[|applied| := Response(machine, applied)], machine, applied)
  {
    var results' := results[|applied| := Response(machine, applied)];
    assert applied[..|applied|] == applied;
    forall k | k in results' ensures ResponseAt(results', machine, applied, k) {
      if k != |applied| { assert ResponseAt(results, machine, applied, k); }
    }
  }

  /** The requests waiting for the indexes in (from, to] have their results. */
  ghost predicate Signalled(results: map<nat, string>, waiting: map<nat, nat>, from: nat, to: nat) {
    forall k :: from < k <= to && k in waiting ==> k in results
  }

  class RaftNode {
    const me: nat
    const size: nat
    const rsm: ExactlyOnceStateMachine

    // Storage.
    var raftState: map<string, nat>
    var raftLog: map<nat, LogEntry>
    var lastIndex: nat

    var state: Role
    var commitIndex: nat
    var votes: set<nat>

    // Leader state.
    var matchIndex: seq<nat>
    var nextIndex: seq<nat>
    var currentTermStartIndex: nat
    var pendingLog: seq<LogEntry>
    var pendingRequests: map<nat, nat>

    /** The results handed to the pending requests, by log index. */
    var results: map<nat, string>

    ghost predicate Valid()
      reads this, rsm
    {
      && rsm.Valid() && CURRENT_TERM in raftState && Dense(raftLog, lastIndex)
      && |rsm.applied| == commitIndex <= lastIndex
      && Responses(results, rsm.machine, rsm.applied)
      && (state == Leader ==> me < size && |nextIndex| == size && |matchIndex| == size)
    }

    ghost function Log(): seq<LogEntry>
      requires Dense(raftLog, lastIndex)
      reads this`raftLog, this`lastIndex
    {
      LogOf(raftLog, lastIndex)
    }

    ghost function View(): Node<Request>
      requires Valid()
      reads this, rsm
    {
      Node(raftState[CURRENT_TERM], VotedFor(raftState), Log(), state, commitIndex, rsm.applied, votes,
           pendingLog, currentTermStartIndex, nextIndex, matchIndex, pendingRequests)
    }

    /** Start-up, from storage that may be empty. */
    constructor (me: nat, size: nat, machine: Machine, stored: map<string, nat>, log: map<nat, LogEntry>, last: nat)
      requires Dense(log, last)
      ensures Valid() && this.me == me && this.size == size && fresh(rsm)
      ensures View() == Restarted(if CURRENT_TERM in stored then stored[CURRENT_TERM] else 0,
                                  VotedFor(stored), LogOf(log, last))
    {
      this.me, this.size := me, size;
      rsm := new ExactlyOnceStateMachine(machine);
      raftState := if CURRENT_TERM in stored then stored else stored[CURRENT_TERM := 0];
      raftLog, lastIndex := log, last;
      state, commitIndex, votes := Follower, 0, {};
      matchIndex, nextIndex, currentTermStartIndex, pendingLog, pendingRequests := [], [], 0, [], map[];
      results := map[];
    }

    method UpdateTerm(term: nat, votedFor: Option<nat>)
      requires Valid() && term > raftState[CURRENT_TERM]
      modifies this`raftState
      ensures Valid() && View() == Replica.UpdateTerm(old(View()), term, votedFor)
    {
      var batch := raftState[CURRENT_TERM := term];
      match votedFor {
        case Some(v) => batch := batch[VOTED_FOR := v];
        case None => batch := batch - {VOTED_FOR};
      }
      raftState := batch;
    }

    method BecomeFollower()
      requires Valid() && state != Follower
      modifies this`state
      ensures Valid() && View() == old(View()).(role := Follower)
    {
      state := Follower;
    }

    method BecomeLeader()
      requires Valid() && state == Candidate && me < size
      modifies this`state, this`pendingLog, this`currentTermStartIndex, this`nextIndex, this`matchIndex
      ensures Valid() && View() == Replica.BecomeLeader(old(View()), size)
    {
      pendingLog := [];
      currentTermStartIndex := lastIndex + 1;
      nextIndex := Repeat(size, lastIndex + 1);
      matchIndex := Repeat(size, 0);
      state := Leader;
    }

    // ---------------------------------------------------------------- AppendEntries

    /** Deletes the tail of the log and writes the new entries. */
    method StoreEntries(request: AppendRequest<Request>)
      requires Valid() && LogMatches(Log(), request)
      modifies this`raftLog, this`lastIndex
      ensures Dense(raftLog, lastIndex) && Log() == Stored(old(Log()), commitIndex, request)
    {
      raftLog, lastIndex := WriteBatch(raftLog, lastIndex, commitIndex, request);
    }

    /** Runs the entries up to the index through the state machine. */
    method ApplyAll(newCommitIndex: nat)
      requires rsm.Valid() && Dense(raftLog, lastIndex) && |rsm.applied| == commitIndex <= newCommitIndex <= lastIndex
      modifies rsm
      ensures rsm.Valid() && rsm.applied == old(rsm.applied) + Values(Log()[commitIndex..newCommitIndex])
    {
      ghost var before := rsm.applied;
      var index := commitIndex + 1;
      while index <= newCommitIndex
        invariant commitIndex < index <= newCommitIndex + 1
        invariant rsm.Valid() && rsm.applied == Ran(before, Log(), commitIndex, index - 1)
      {
        RanNext(before, Log(), commitIndex, index);
        var _ := rsm.Apply(raftLog[index].value);
        index := index + 1;
      }
    }

    method ApplyUpTo(newCommitIndex: nat)
      requires Valid() && commitIndex <= newCommitIndex <= lastIndex
      modifies this`commitIndex, rsm
      ensures Valid() && View() == AdvanceCommit(old(View()), newCommitIndex)
    {
      ghost var before := rsm.applied;
      ApplyAll(newCommitIndex);
      commitIndex := newCommitIndex;
      ResponsesStay(results, rsm.machine, before, rsm.applied);
    }

    /** A leader of this term or a later one is followed. */
    method FollowLeader(term: nat)
      requires Valid() && term >= raftState[CURRENT_TERM]
      modifies this`state, this`raftState
      ensures Valid() && View() == JoinTerm(old(View()).(role := Follower), term)
    {
      if state != Follower {
        BecomeFollower();
      }
      if term > raftState[CURRENT_TERM] {
        UpdateTerm(term, None);
      }
    }

    method AppendEntries(request: AppendRequest<Request>) returns (result: AppendReply)
      requires Valid() && AppendChecks(View(), request)
      modifies this`state, this`raftState, this`raftLog, this`lastIndex, this`commitIndex, rsm
      ensures Valid() && (View(), result) == HandleAppend(old(View()), request)
    {
      result := AppendReply(raftState[CURRENT_TERM], false);
      if request.term < raftState[CURRENT_TERM] {
        return;
      }
      FollowLeader(request.term);
      assert request.prevIndex != 0 || request.prevTerm == 0;
      if request.prevIndex > lastIndex {
        return;
      }
      if request.prevIndex != 0 && raftLog[request.prevIndex].term != request.prevTerm {
        return;
      }
      result := result.(success := true);
      CheckOverlap(request);
      Accept(request);
    }

    /** The entries of a matching request are saved, and what the leader has committed of them applied. */
    method Accept(request: AppendRequest<Request>)
      requires Valid() && LogMatches(Log(), request)
      modifies this`raftLog, this`lastIndex, this`commitIndex, rsm
      ensures Valid()
      ensures var stored := old(View()).(log := Stored(old(Log()), old(commitIndex), request));
              View() == AdvanceCommit(stored, Max(stored.commit, Min(request.leaderCommit, |stored.log|)))
    {
      StoreEntries(request);
      ApplyUpTo(Max(commitIndex, Min(request.leaderCommit, lastIndex)));
    }

    /** What the leader sends of the committed log must be what is there. */
    method CheckOverlap(request: AppendRequest<Request>)
      requires Valid() && LogMatches(Log(), request)
      requires forall k :: request.prevIndex <= k < commitIndex && k - request.prevIndex < |request.entries| ==>
                 SameThere(Log(), request, k)
    {
      var index := request.prevIndex + 1;
      while index <= commitIndex && index - request.prevIndex - 1 < |request.entries|
        invariant request.prevIndex < index
        decreases commitIndex - index
      {
        assert SameThere(Log(), request, index - 1);
        assert request.entries[index - request.prevIndex - 1] == raftLog[index];
        index := index + 1;
      }
    }

    // ---------------------------------------------------------------- elections

    /** Is the candidate's log at least as far as this one? */
    method CompareLogs(request: VoteRequest) returns (granted: bool)
      requires Valid()
      ensures granted <==> LastTerm(Log()) < request.lastTerm ||
                           (LastTerm(Log()) == request.lastTerm && |Log()| <= request.lastIndex)
    {
      var lastLogTerm := if lastIndex == 0 then 0 else raftLog[lastIndex].term;
      if lastLogTerm == request.lastTerm {
        granted := lastIndex <= request.lastIndex;
      } else {
        granted := lastLogTerm < request.lastTerm;
      }
    }

    /** A higher term is joined as a follower. */
    method Join(term: nat)
      requires Valid() && term > raftState[CURRENT_TERM]
      modifies this`state, this`raftState
      ensures Valid() && View() == old(View()).(term := term, votedFor := None, role := Follower)
    {
      UpdateTerm(term, None);
      if state != Follower {
        BecomeFollower();
      }
    }

    /** The vote in the node's own term, stored when it is new. */
    method Vote(request: VoteRequest) returns (granted: bool)
      requires Valid()
      modifies this`raftState
      ensures Valid() && View() == old(View()).(votedFor := VotedFor(raftState))
      ensures VotedFor(raftState) == if granted then Some(request.candidate) else old(VotedFor(raftState))
      ensures granted <==> old(VotedFor(raftState)) == Some(request.candidate) ||
                           (old(VotedFor(raftState)) == None &&
                            (LastTerm(Log()) < request.lastTerm ||
                             (LastTerm(Log()) == request.lastTerm && lastIndex <= request.lastIndex)))
    {
      var votedFor := VotedFor(raftState);
      if votedFor == Some(request.candidate) {
        return true;
      }
      if votedFor.Some? {
        return false;
      }
      granted := CompareLogs(request);
      if granted {
        raftState := raftState[VOTED_FOR := request.candidate];
      }
    }

    method RequestVote(request: VoteRequest) returns (result: VoteReply)
      requires Valid()
      modifies this`state, this`raftState
      ensures Valid() && (View(), result) == HandleVote(old(View()), request)
      ensures result.term == old(raftState[CURRENT_TERM])
      ensures raftState[CURRENT_TERM] == Max(result.term, request.term)
      ensures result.granted <==>
                || (request.term == result.term && old(VotedFor(raftState)) == Some(request.candidate))
                || ((request.term > result.term || (request.term == result.term && old(VotedFor(raftState)) == None)) &&
                    (LastTerm(Log()) < request.lastTerm ||
                     (LastTerm(Log()) == request.lastTerm && lastIndex <= request.lastIndex)))
      ensures VotedFor(raftState) == if result.granted then Some(request.candidate)
                                     else if request.term > result.term then None else old(VotedFor(raftState))
    {
      result := VoteReply(raftState[CURRENT_TERM], false);
      if request.term < raftState[CURRENT_TERM] {
        return;
      }
      if request.term > result.term {
        Join(request.term);
      }
      var granted := Vote(request);
      result := result.(granted := granted);
    }

    /** Follower or candidate opens an election; the ballot goes to all other nodes. */
    method StartCandidate() returns (ballot: VoteRequest)
      requires Valid() && state != Leader
      modifies this`state, this`raftState, this`votes
      ensures Valid() && View() == StartElection(old(View()), me) && ballot == Ballot(View(), me)
    {
      state := Candidate;
      UpdateTerm(raftState[CURRENT_TERM] + 1, Some(me));
      votes := {me};
      var lastLogTerm := if lastIndex == 0 then 0 else raftLog[lastIndex].term;
      ballot := VoteRequest(raftState[CURRENT_TERM], me, lastIndex, lastLogTerm);
      assert lastLogTerm == LastTerm(Log());
    }

    /** The answer of one voter to the ballot of the given term. */
    method VoteAnswered(voter: nat, ballotTerm: nat, reply: VoteReply)
      requires Valid() && me < size
      modifies this`state, this`raftState, this`votes, this`pendingLog, this`currentTermStartIndex, this`nextIndex,
               this`matchIndex
      ensures Valid() && View() == HandleVoteReply(old(View()), size, voter, ballotTerm, reply)
      ensures reply.term > old(raftState[CURRENT_TERM]) ==>
                state == Follower && raftState[CURRENT_TERM] == reply.term && VotedFor(raftState) == None
      ensures old(state) != Leader ==>
                (state == Leader <==> reply.granted && reply.term <= old(raftState[CURRENT_TERM]) == ballotTerm &&
                                      old(state) == Candidate && voter !in old(votes) &&
                                      |old(votes) + {voter}| == size / 2 + 1)
    {
      if raftState[CURRENT_TERM] < reply.term {
        Join(reply.term);
        return;
      }
      if !reply.granted || raftState[CURRENT_TERM] != ballotTerm || state != Candidate || voter in votes {
        return;
      }
      votes := votes + {voter};
      if |votes| == Majority(size) {
        BecomeLeader();
      }
    }

    // ---------------------------------------------------------------- leading

    /** The first half of Execute: the entry is pending and the call waits for its index. */
    method Execute(request: Request, call: nat) returns (accepted: bool)
      requires Valid()
      modifies this`pendingLog, this`nextIndex, this`pendingRequests
      ensures Valid() && accepted == (old(View()).role == Leader)
      ensures View() == if accepted then Submit(old(View()), me, request, call) else old(View())
    {
      accepted := state == Leader;
      if accepted {
        var index := nextIndex[me];
        nextIndex := nextIndex[me := index + 1];
        pendingLog := pendingLog + [Entry(raftState[CURRENT_TERM], request)];
        pendingRequests := pendingRequests[index := call];
      }
    }

    /** The second half of Execute, when the call accepted in the given term under the given index wakes. */
    method Reply(index: nat, term: nat) returns (reply: ExecuteReply)
      requires Valid() && (term == raftState[CURRENT_TERM] ==> state == Leader && index in results)
      modifies this`pendingRequests
      ensures Valid() && View() == old(View()).(waiting := old(View()).waiting - {index})
      ensures reply == NotALeader <==> term != raftState[CURRENT_TERM]
      ensures reply.Commited? ==>
                1 <= index <= |rsm.applied| && reply.result == Response(rsm.machine, rsm.applied[..index])
    {
      assert index in results ==> ResponseAt(results, rsm.machine, rsm.applied, index);
      pendingRequests := pendingRequests - {index};
      if term != raftState[CURRENT_TERM] {
        return NotALeader;
      }
      assert state == Leader;
      return Commited(results[index]);
    }

    /** Applies the next entry and signals the request waiting for it. */
    method ApplyNext(index: nat, request: Request, ghost first: nat)
      requires rsm.Valid() && first <= |rsm.applied| == index - 1
      requires Responses(results, rsm.machine, rsm.applied) && Signalled(results, pendingRequests, first, |rsm.applied|)
      modifies this`results, rsm
      ensures rsm.Valid() && rsm.applied == old(rsm.applied) + [request]
      ensures Responses(results, rsm.machine, rsm.applied) && Signalled(results, pendingRequests, first, |rsm.applied|)
      ensures old(results.Keys) <= results.Keys
    {
      ResponsesStay(results, rsm.machine, rsm.applied, rsm.applied + [request]);
      var result := rsm.Apply(request);
      ResponsesPut(results, rsm.machine, rsm.applied);
      if index in pendingRequests {
        results := results[index := result];
      }
    }

    /** Applies the newly committed entries and signals the requests waiting for them. */
    method ApplyAndSignal(newCommitIndex: nat)
      requires rsm.Valid() && Dense(raftLog, lastIndex) && |rsm.applied| == commitIndex <= newCommitIndex <= lastIndex
      requires Responses(results, rsm.machine, rsm.applied)
      modifies this`results, rsm
      ensures rsm.Valid() && rsm.applied == old(rsm.applied) + Values(Log()[commitIndex..newCommitIndex])
      ensures Responses(results, rsm.machine, rsm.applied)
      ensures Signalled(results, pendingRequests, commitIndex, newCommitIndex)
      ensures old(results.Keys) <= results.Keys
    {
      ghost var before := rsm.applied;
      var index := commitIndex + 1;
      while index <= newCommitIndex
        invariant commitIndex < index <= newCommitIndex + 1
        invariant rsm.Valid() && rsm.applied == Ran(before, Log(), commitIndex, index - 1)
        invariant Responses(results, rsm.machine, rsm.applied)
        invariant Signalled(results, pendingRequests, commitIndex, index - 1)
        invariant old(results.Keys) <= results.Keys
      {
        RanNext(before, Log(), commitIndex, index);
        ApplyNext(index, raftLog[index].value, commitIndex);
        index := index + 1;
      }
    }

    /** Commits what a majority holds. */
    method UpdateCommitIndex()
      requires Valid()
      modifies this`commitIndex, this`results, rsm
      ensures Valid() && View() == Replica.UpdateCommitIndex(old(View()), size)
      ensures Signalled(results, pendingRequests, old(commitIndex), commitIndex) && old(results.Keys) <= results.Keys
    {
      var newCommitIndex := FindCommitIndex(matchIndex, commitIndex, currentTermStartIndex, lastIndex, Majority(size));
      ApplyAndSignal(newCommitIndex);
      commitIndex := newCommitIndex;
    }

    /** One round of the main session: the pending entries are saved at once. On the first round of a
        reign the match index of the node itself is not set yet. */
    method Flush(first: bool)
      requires Valid() && state == Leader && (first || matchIndex[me] == lastIndex)
      modifies this`raftLog, this`lastIndex, this`matchIndex, this`pendingLog, this`commitIndex, this`results, rsm
      ensures Valid() && View() == Replica.Flush(old(View()), me, size) && matchIndex[me] == lastIndex
      ensures Signalled(results, pendingRequests, old(commitIndex), commitIndex) && old(results.Keys) <= results.Keys
    {
      SavePending(first);
      UpdateCommitIndex();
    }

    /** On the first round of a reign the match index of the node itself is not set yet. */
    method MatchSelf(first: bool)
      requires Valid() && state == Leader && (first || matchIndex[me] == lastIndex)
      modifies this`matchIndex
      ensures Valid() && View() == old(View()).(matchIndex := old(matchIndex)[me := lastIndex])
    {
      if first {
        matchIndex := matchIndex[me := lastIndex];
      }
    }

    /** The pending entries are saved above the given index. */
    method WritePending(at: nat)
      requires Valid() && at == lastIndex
      modifies this`raftLog, this`lastIndex
      ensures Valid() && View() == old(View()).(log := old(Log()) + pendingLog)
    {
      raftLog := PutAll(raftLog, at, pendingLog);
      lastIndex := at + |pendingLog|;
    }

    method SavePending(first: bool)
      requires Valid() && state == Leader && (first || matchIndex[me] == lastIndex)
      modifies this`raftLog, this`lastIndex, this`matchIndex, this`pendingLog
      ensures Valid() && View() == Saved(old(View()), me)
    {
      ghost var matched := matchIndex[me := lastIndex + |pendingLog|];
      MatchSelf(first);
      WritePending(matchIndex[me]);
      matchIndex := matchIndex[me := matchIndex[me] + |pendingLog|];
      assert matchIndex == matched;
      pendingLog := [];
    }

    method GetLogEntry(index: nat) returns (entry: LogEntry)
      requires Valid() && 0 < index <= lastIndex + |pendingLog|
      ensures entry == (Log() + pendingLog)[index - 1]
    {
      if index <= lastIndex {
        entry := raftLog[index];
      } else {
        entry := pendingLog[index - lastIndex - 1];
      }
    }

    /** The entries from first up to, not including, end. */
    method EntriesTo(first: nat, end: nat) returns (entries: seq<LogEntry>)
      requires Valid() && 1 <= first <= end <= lastIndex + |pendingLog| + 1
      ensures entries == (Log() + pendingLog)[first - 1..end - 1]
    {
      entries := [];
      var index := first;
      while index < end
        invariant first <= index <= end && entries == (Log() + pendingLog)[first - 1..index - 1]
      {
        var entry := GetLogEntry(index);
        entries := entries + [entry];
        index := index + 1;
      }
    }

    /** The request of one round of the session with a follower. */
    method MakeRequest(node: nat) returns (request: AppendRequest<Request>)
      requires Valid() && state == Leader && node < size
      requires 1 <= nextIndex[node] <= lastIndex + 1 && nextIndex[me] == lastIndex + |pendingLog| + 1
      ensures request == Replica.MakeRequest(View(), me, nextIndex[node], lastIndex + |pendingLog|)
    {
      var first := nextIndex[node];
      var prevTerm := if first == 1 then 0 else raftLog[first - 1].term;
      var entries := EntriesTo(first, nextIndex[me]);
      request := AppendRequest(raftState[CURRENT_TERM], me, first - 1, prevTerm, entries, commitIndex);
    }

    /** The answer of a follower to the session's request. */
    method AppendAnswered(node: nat, request: AppendRequest<Request>, reply: AppendReply)
      requires Valid() && state == Leader && node < size
      requires reply.term <= raftState[CURRENT_TERM] && !reply.success ==> nextIndex[node] >= 2
      modifies this`state, this`raftState, this`matchIndex, this`nextIndex, this`commitIndex, this`results, rsm
      ensures Valid() && View() == HandleAppendReply(old(View()), size, node, request, reply)
      ensures Signalled(results, pendingRequests, old(commitIndex), commitIndex) && old(results.Keys) <= results.Keys
    {
      if reply.term > raftState[CURRENT_TERM] {
        Join(reply.term);
        return;
      }
      if !reply.success {
        assert nextIndex[node] >= 2;
        nextIndex := nextIndex[node := nextIndex[node] - 1];
        return;
      }
      Acknowledge(node, request);
    }

    /** The follower holds all of the request. */
    method Confirm(node: nat, request: AppendRequest<Request>)
      requires Valid() && state == Leader && node < size
      modifies this`matchIndex, this`nextIndex
      ensures Valid() && View() == Confirmed(old(View()), node, request)
    {
      matchIndex := matchIndex[node := request.prevIndex + |request.entries|];
      nextIndex := nextIndex[node := nextIndex[node] + |request.entries|];
    }

    method Acknowledge(node: nat, request: AppendRequest<Request>)
      requires Valid() && state == Leader && node < size
      modifies this`matchIndex, this`nextIndex, this`commitIndex, this`results, rsm
      ensures Valid() && View() == Replica.UpdateCommitIndex(Confirmed(old(View()), node, request), size)
      ensures Signalled(results, pendingRequests, old(commitIndex), commitIndex) && old(results.Keys) <= results.Keys
    {
      Confirm(node, request);
      UpdateCommitIndex();
    }
  }
}
