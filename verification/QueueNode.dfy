/** The Metamorphosis replica as an object whose handlers change its fields and its storage in place.

    Elections are those of the Raft replica. The handlers here are the ones that differ: they count
    producers' messages, and they choose what to send to whom.
 */
module QueueNode {
  import opened Entries
  import opened Replica
  import opened Storage
  import opened CommitIndex
  import opened Metamorphosis
  import opened MainNodes
  import opened Counters
  import QueueReads

  datatype AppendReplyStatus = Refused | Commited(offset: nat, nextSequenceId: int)

  datatype AppendStatus = NotALeader | ParallelRequest | InvalidSequenceId(next: int) | Accepted(index: nat)

  lemma AppliedWhole(n: Node<Msg>, k: nat)
    requires n.commit <= k <= |n.log| && n.applied == Values(n.log[..n.commit])
    ensures AdvanceCommit(n, k).applied == Values(n.log[..k])
  {
    assert n.log[..k] == n.log[..n.commit] + n.log[n.commit..k];
  }

  lemma StoredKeeps(log: MsgLog, commit: nat, request: AppendRequest<Msg>)
    requires commit <= |log| && request.prevIndex <= |log|
    ensures var stored := Stored(log, commit, request); commit <= |stored| && stored[..commit] == log[..commit]
  {}

  /** The offset kept for an index is that index, and it is committed. */
  ghost predicate Placements(offsets: map<nat, nat>, commit: nat) {
    forall k :: k in offsets ==> 1 <= k <= commit && offsets[k] == k
  }

  /** The requests waiting for the indexes in (from, to] have their offsets. */
  ghost predicate Placed(offsets: map<nat, nat>, waiting: map<nat, nat>, from: nat, to: nat) {
    forall k :: from < k <= to && k in waiting ==> k in offsets
  }

  lemma LightenNext(full: MsgLog, first: nat, index: nat, commit: nat)
    requires 1 <= first <= index <= |full|
    ensures Lighten(full[first - 1..index], first, commit, StripMsg) ==
            Lighten(full[first - 1..index - 1], first, commit, StripMsg) +
            [if index <= commit then Entry(full[index - 1].term, StripMsg(full[index - 1].value)) else full[index - 1]]
  {}

  class MetamorphosisNode {
    const me: nat
    const size: nat
    const md5: string -> Hash

    // Storage.
    var raftState: map<string, nat>
    var raftLog: map<nat, Entry<Msg>>
    var lastIndex: nat

    var state: Role
    var commitIndex: nat
    var votes: set<nat>
    var producerNextSequenceId: map<nat, int>
    var pendingProducers: set<nat>

    // Leader state.
    var matchIndex: seq<nat>
    var nextIndex: seq<nat>
    var currentTermStartIndex: nat
    var pendingLog: MsgLog
    var pendingRequests: map<nat, nat>
    var aliveMainNodesCount: int
    /** What each session thinks of its follower. */
    var isAlive: seq<bool>

    /** The offsets handed to the pending requests, by log index. */
    var offsets: map<nat, nat>

    ghost predicate Valid()
      reads this
    {
      && CURRENT_TERM in raftState && Dense(raftLog, lastIndex) && commitIndex <= lastIndex
      && Placements(offsets, commitIndex)
      && (state == Leader ==>
            me < size == |nextIndex| == |matchIndex| == |isAlive| &&
            aliveMainNodesCount == |AliveGroup(me, size, isAlive)|)
    }

    ghost function Log(): MsgLog
      requires Dense(raftLog, lastIndex)
      reads this`raftLog, this`lastIndex
    {
      LogOf(raftLog, lastIndex)
    }

    ghost function View(): Node<Msg>
      requires Valid()
      reads this
    {
      Node(raftState[CURRENT_TERM], VotedFor(raftState), Log(), state, commitIndex, Values(Log()[..commitIndex]), votes,
           pendingLog, currentTermStartIndex, nextIndex, matchIndex, pendingRequests)
    }

    /** How far the counter of p is from the number of its messages in the saved log. */
    ghost function Miscount(p: nat): int
      requires Dense(raftLog, lastIndex)
      reads this`raftLog, this`lastIndex, this`producerNextSequenceId
    {
      Error(producerNextSequenceId, Log(), p)
    }

    /** Start-up: the counters are recomputed from the log. */
    constructor (md5: string -> Hash, me: nat, size: nat, stored: map<string, nat>, log: map<nat, Entry<Msg>>,
                 last: nat)
      requires Dense(log, last)
      ensures Valid() && this.me == me && this.size == size && this.md5 == md5
      ensures View() == Restarted(if CURRENT_TERM in stored then stored[CURRENT_TERM] else 0,
                                  VotedFor(stored), LogOf(log, last))
      ensures forall p: nat :: Miscount(p) == 0
    {
      this.me, this.size, this.md5 := me, size, md5;
      raftState := if CURRENT_TERM in stored then stored else stored[CURRENT_TERM := 0];
      raftLog, lastIndex := log, last;
      state, commitIndex, votes, pendingProducers := Follower, 0, {}, {};
      matchIndex, nextIndex, currentTermStartIndex, pendingLog, pendingRequests := [], [], 0, [], map[];
      aliveMainNodesCount, isAlive, offsets := 0, [], map[];
      var counters := CountAll(log, last);
      producerNextSequenceId := counters;
    }

    // ---------------------------------------------------------------- client calls

    /** The first half of Append: a producer's next message is pending and the call waits for its index. */
    method Append(producer: nat, sequenceId: nat, data: string, call: nat) returns (status: AppendStatus)
      requires Valid()
      modifies this`pendingProducers, this`nextIndex, this`pendingLog, this`pendingRequests
      ensures Valid()
      ensures status.Accepted? <==> old(state == Leader && producer !in pendingProducers &&
                                        sequenceId == Counter(producerNextSequenceId, producer))
      ensures status.Accepted? ==>
                && status.index == old(nextIndex[me]) && pendingProducers == old(pendingProducers) + {producer}
                && View() == Submit(old(View()), me, Msg(producer, md5(data), data), call)
      ensures !status.Accepted? ==> View() == old(View()) && pendingProducers == old(pendingProducers)
      ensures status == NotALeader <==> old(state) != Leader
      ensures status == ParallelRequest <==> old(state == Leader && producer in pendingProducers)
      ensures status.InvalidSequenceId? <==> old(state == Leader && producer !in pendingProducers &&
                                                 sequenceId != Counter(producerNextSequenceId, producer))
      ensures status.InvalidSequenceId? ==> status.next == old(Counter(producerNextSequenceId, producer))
    {
      if state != Leader {
        return NotALeader;
      }
      if producer in pendingProducers {
        return ParallelRequest;
      }
      if sequenceId != Counter(producerNextSequenceId, producer) {
        return InvalidSequenceId(Counter(producerNextSequenceId, producer));
      }
      pendingProducers := pendingProducers + {producer};
      var index := nextIndex[me];
      nextIndex := nextIndex[me := index + 1];
      pendingLog := pendingLog + [Entry(raftState[CURRENT_TERM], Msg(producer, md5(data), data))];
      pendingRequests := pendingRequests[index := call];
      return Accepted(index);
    }

    /** The second half of Append, when the call accepted in the given term under the given index wakes. */
    method Reply(producer: nat, index: nat, term: nat) returns (reply: AppendReplyStatus)
      requires Valid() && (term == raftState[CURRENT_TERM] ==> state == Leader && index in offsets)
      modifies this`pendingRequests, this`pendingProducers
      ensures Valid() && View() == old(View()).(waiting := old(View()).waiting - {index})
      ensures pendingProducers == old(pendingProducers) - {producer}
      ensures reply == Refused <==> term != raftState[CURRENT_TERM]
      ensures reply.Commited? ==> reply.offset == index && 1 <= index <= commitIndex &&
                                  reply.nextSequenceId == Counter(producerNextSequenceId, producer)
    {
      pendingRequests := pendingRequests - {index};
      if term != raftState[CURRENT_TERM] {
        reply := Refused;
      } else {
        assert state == Leader;
        reply := Commited(offsets[index], Counter(producerNextSequenceId, producer));
      }
      pendingProducers := pendingProducers - {producer};
    }

    method Read(offset: nat) returns (reply: QueueReads.ReadReply)
      requires Valid()
      ensures reply == QueueReads.Read(View(), offset)
      ensures reply == QueueReads.NotFound <==> offset > commitIndex
      ensures reply == QueueReads.Failed <==> offset == 0
      ensures 1 <= offset <= commitIndex ==> QueueReads.Carries(reply, Log()[offset - 1].value)
    {
      if offset > commitIndex {
        return QueueReads.NotFound;
      }
      if offset !in raftLog {
        return QueueReads.Failed;
      }
      var m := raftLog[offset].value;
      if m.data != "" {
        return QueueReads.FullMessage(m.data);
      }
      return QueueReads.HashOnly(m.hash);
    }

    // ---------------------------------------------------------------- AppendEntries

    method UpdateTerm(term: nat, votedFor: Option<nat>)
      requires Valid() && term > raftState[CURRENT_TERM]
      modifies this`raftState
      ensures Valid() && View() == Replica.UpdateTerm(old(View()), term, votedFor)
    {
      match votedFor {
        case Some(v) => raftState := raftState[CURRENT_TERM := term][VOTED_FOR := v];
        case None => raftState := raftState[CURRENT_TERM := term] - {VOTED_FOR};
      }
    }

    /** The entries of a matching request are saved and counted; what they replace is uncounted. */
    method StoreEntries(request: AppendRequest<Msg>)
      requires Valid() && LogMatches(Log(), request)
      modifies this`raftLog, this`lastIndex, this`producerNextSequenceId
      ensures Dense(raftLog, lastIndex) && Log() == Stored(old(Log()), commitIndex, request)
      ensures forall p: nat :: Miscount(p) ==
                old(Miscount(p)) - Count(old(Log())[request.prevIndex..Max(request.prevIndex, commitIndex)], p)
    {
      ghost var before, log := producerNextSequenceId, Log();
      var uncounted := Uncount(producerNextSequenceId, raftLog, lastIndex, request.prevIndex);
      raftLog, lastIndex, producerNextSequenceId := CountedBatch(raftLog, lastIndex, commitIndex, request, uncounted);
      forall p: nat
        ensures Miscount(p) == Error(before, log, p)
                               - Count(log[request.prevIndex..Max(request.prevIndex, commitIndex)], p)
      {
        AcceptedError(before, uncounted, producerNextSequenceId, log, commitIndex, request, p);
      }
    }

    method Accept(request: AppendRequest<Msg>)
      requires Valid() && LogMatches(Log(), request)
      modifies this`raftLog, this`lastIndex, this`producerNextSequenceId, this`commitIndex
      ensures Valid()
      ensures var stored := old(View()).(log := Stored(old(Log()), old(commitIndex), request));
              View() == AdvanceCommit(stored, Max(stored.commit, Min(request.leaderCommit, |stored.log|)))
      ensures forall p: nat :: Miscount(p) ==
                old(Miscount(p)) - Count(old(Log())[request.prevIndex..Max(request.prevIndex, old(commitIndex))], p)
    {
      ghost var before := View();
      StoredKeeps(Log(), commitIndex, request);
      StoreEntries(request);
      var newCommitIndex := Max(commitIndex, Min(request.leaderCommit, lastIndex));
      AppliedWhole(before.(log := Log()), newCommitIndex);
      commitIndex := newCommitIndex;
    }

    /** A leader of this term or a later one is followed. */
    method FollowLeader(term: nat)
      requires Valid() && term >= raftState[CURRENT_TERM]
      modifies this`state, this`raftState
      ensures Valid() && View() == JoinTerm(old(View()).(role := Follower), term)
    {
      state := Follower;
      if term > raftState[CURRENT_TERM] {
        UpdateTerm(term, None);
      }
    }

    method AppendEntries(request: AppendRequest<Msg>) returns (result: AppendReply)
      requires Valid() && AppendChecks(View(), request)
      modifies this`state, this`raftState, this`raftLog, this`lastIndex, this`producerNextSequenceId, this`commitIndex
      ensures Valid() && (View(), result) == HandleAppend(old(View()), request)
      ensures forall p: nat :: Miscount(p) == old(Miscount(p)) -
                if result.success then Count(old(Log())[request.prevIndex..Max(request.prevIndex, old(commitIndex))], p)
                else 0
    {
      result := AppendReply(raftState[CURRENT_TERM], false);
      if request.term < raftState[CURRENT_TERM] {
        return;
      }
      FollowLeader(request.term);
      assert request.prevIndex != 0 || request.prevTerm == 0;
      if request.prevIndex > lastIndex {
        return;
      }
      if request.prevIndex != 0 && raftLog[request.prevIndex].term != request.prevTerm {
        return;
      }
      result := result.(success := true);
      CheckOverlap(request);
      Accept(request);
    }

    /** What the leader sends of the committed log must be what is there. */
    method CheckOverlap(request: AppendRequest<Msg>)
      requires Valid() && LogMatches(Log(), request)
      requires forall k :: request.prevIndex <= k < commitIndex && k - request.prevIndex < |request.entries| ==>
                 SameThere(Log(), request, k)
    {
      var index := request.prevIndex + 1;
      while index <= commitIndex && index - request.prevIndex - 1 < |request.entries|
        invariant request.prevIndex < index
        decreases commitIndex - index
      {
        assert SameThere(Log(), request, index - 1);
        assert request.entries[index - request.prevIndex - 1] == raftLog[index];
        index := index + 1;
      }
    }

    // ---------------------------------------------------------------- leading

    method BecomeLeader()
      requires Valid() && state == Candidate && me < size
      modifies this`state, this`pendingLog, this`currentTermStartIndex, this`nextIndex, this`matchIndex,
               this`aliveMainNodesCount, this`isAlive
      ensures Valid() && View() == Replica.BecomeLeader(old(View()), size)
      ensures forall j :: 0 <= j < size ==> isAlive[j]
    {
      ResetAlive();
      pendingLog := [];
      currentTermStartIndex := lastIndex + 1;
      nextIndex := Repeat(size, lastIndex + 1);
      matchIndex := Repeat(size, 0);
      state := Leader;
    }

    /** At the start of a reign every session believes in its follower. */
    method ResetAlive()
      requires me < size
      modifies this`aliveMainNodesCount, this`isAlive
      ensures |isAlive| == size && (forall j :: 0 <= j < size ==> isAlive[j])
      ensures aliveMainNodesCount == |AliveGroup(me, size, isAlive)|
    {
      isAlive := Everyone(size);
      aliveMainNodesCount := Majority(size);
      AllMainAlive(me, size, isAlive);
    }

    /** Signals the requests waiting for the newly committed indexes. */
    method Signal(newCommitIndex: nat)
      requires commitIndex <= newCommitIndex && Placements(offsets, commitIndex)
      modifies this`offsets
      ensures Placements(offsets, newCommitIndex) && Placed(offsets, pendingRequests, commitIndex, newCommitIndex)
      ensures old(offsets.Keys) <= offsets.Keys
    {
      var index := commitIndex + 1;
      while index <= newCommitIndex
        invariant commitIndex < index <= newCommitIndex + 1 && Placed(offsets, pendingRequests, commitIndex, index - 1)
        invariant Placements(offsets, newCommitIndex) && old(offsets.Keys) <= offsets.Keys
      {
        if index in pendingRequests {
          offsets := offsets[index := index];
        }
        index := index + 1;
      }
    }

    method UpdateCommitIndex()
      requires Valid()
      modifies this`commitIndex, this`offsets
      ensures Valid() && View() == Replica.UpdateCommitIndex(old(View()), size)
      ensures Placed(offsets, pendingRequests, old(commitIndex), commitIndex) && old(offsets.Keys) <= offsets.Keys
    {
      var newCommitIndex := FindCommitIndex(matchIndex, commitIndex, currentTermStartIndex, lastIndex, Majority(size));
      AppliedWhole(View(), newCommitIndex);
      Signal(newCommitIndex);
      commitIndex := newCommitIndex;
    }

    /** The pending entries are saved above the given index and counted, and their producers may append again. */
    method WritePending(at: nat)
      requires Valid() && at == lastIndex
      modifies this`raftLog, this`lastIndex, this`producerNextSequenceId, this`pendingProducers
      ensures Valid() && View() == old(View()).(log := old(Log()) + pendingLog)
      ensures Raised(old(producerNextSequenceId), producerNextSequenceId, pendingLog)
      ensures pendingProducers == old(pendingProducers) - Producers(pendingLog)
    {
      ghost var log := Log();
      raftLog, producerNextSequenceId, pendingProducers :=
        CountedPutAll(raftLog, at, pendingLog, producerNextSequenceId, pendingProducers);
      lastIndex := at + |pendingLog|;
      assert (log + pendingLog)[..commitIndex] == log[..commitIndex];
    }

    /** On the first round of a reign the match index of the node itself is not set yet. */
    method MatchSelf(first: bool)
      requires Valid() && state == Leader && (first || matchIndex[me] == lastIndex)
      modifies this`matchIndex
      ensures Valid() && View() == old(View()).(matchIndex := old(matchIndex)[me := lastIndex])
    {
      if first {
        matchIndex := matchIndex[me := lastIndex];
      }
    }

    /** The saved entries are no longer pending. */
    method PendingSaved()
      requires Valid() && state == Leader && matchIndex[me] + |pendingLog| == lastIndex
      modifies this`matchIndex, this`pendingLog
      ensures Valid() && View() == old(View()).(matchIndex := old(matchIndex)[me := lastIndex], pending := [])
    {
      matchIndex := matchIndex[me := matchIndex[me] + |pendingLog|];
      pendingLog := [];
    }

    method SavePending(first: bool)
      requires Valid() && state == Leader && (first || matchIndex[me] == lastIndex)
      modifies this`raftLog, this`lastIndex, this`matchIndex, this`pendingLog, this`producerNextSequenceId,
               this`pendingProducers
      ensures Valid() && View() == Saved(old(View()), me)
      ensures Raised(old(producerNextSequenceId), producerNextSequenceId, old(pendingLog))
      ensures pendingProducers == old(pendingProducers) - Producers(old(pendingLog))
    {
      MatchSelf(first);
      WritePending(matchIndex[me]);
      PendingSaved();
      assert old(matchIndex)[me := old(lastIndex)][me := lastIndex] == old(matchIndex)[me := lastIndex];
    }

    /** One round of the main session. */
    method Flush(first: bool)
      requires Valid() && state == Leader && (first || matchIndex[me] == lastIndex)
      modifies this`raftLog, this`lastIndex, this`matchIndex, this`pendingLog, this`producerNextSequenceId,
               this`pendingProducers, this`commitIndex, this`offsets
      ensures Valid() && View() == Replica.Flush(old(View()), me, size) && matchIndex[me] == lastIndex
      ensures forall p: nat :: Miscount(p) == old(Miscount(p))
      ensures pendingProducers == old(pendingProducers) - Producers(old(pendingLog))
      ensures Placed(offsets, pendingRequests, old(commitIndex), commitIndex) && old(offsets.Keys) <= offsets.Keys
    {
      SavePending(first);
      SavedError(old(producerNextSequenceId), producerNextSequenceId, old(Log()), old(pendingLog));
      UpdateCommitIndex();
    }

    method GetLogEntry(index: nat) returns (entry: Entry<Msg>)
      requires Valid() && 0 < index <= lastIndex + |pendingLog|
      ensures entry == (Log() + pendingLog)[index - 1]
    {
      if index <= lastIndex {
        entry := raftLog[index];
      } else {
        entry := pendingLog[index - lastIndex - 1];
      }
    }

    /** The entries from first to last; committed ones lose their payload. */
    method EntriesTo(first: nat, last: nat) returns (entries: MsgLog)
      requires Valid() && 1 <= first && last <= lastIndex + |pendingLog| && first <= lastIndex + |pendingLog| + 1
      ensures entries == Lighten((Log() + pendingLog)[first - 1..Max(first - 1, last)], first, commitIndex, StripMsg)
    {
      entries := [];
      var index := first;
      while index <= last
        invariant first <= index <= Max(first, last + 1)
        invariant entries == Lighten((Log() + pendingLog)[first - 1..index - 1], first, commitIndex, StripMsg)
      {
        LightenNext(Log() + pendingLog, first, index, commitIndex);
        var entry := GetLogEntry(index);
        if index <= commitIndex {
          entry := Entry(entry.term, StripMsg(entry.value));
        }
        entries := entries + [entry];
        index := index + 1;
      }
    }

    ghost predicate MainNodeDead()
      requires |isAlive| == size
      reads this`isAlive
    {
      exists j :: 0 <= j < size && j != me && IsMainNode(me, size, j) && !isAlive[j]
    }

    method LastIndexFor(node: nat) returns (last: nat)
      requires Valid() && state == Leader && node < size && nextIndex[me] == lastIndex + |pendingLog| + 1
      ensures last == if IsMainNode(me, size, node) || MainNodeDead() then lastIndex + |pendingLog| else commitIndex
    {
      AllMainAlive(me, size, isAlive);
      if !IsMainNode(me, size, node) && aliveMainNodesCount == Majority(size) {
        last := commitIndex;
      } else {
        last := nextIndex[me] - 1;
      }
    }

    /** The request of one round of the session with a follower: committed entries only when it is
        not a main node and all main nodes are alive, and the whole suffix otherwise. */
    method MakeRequest(node: nat) returns (request: AppendRequest<Msg>)
      requires Valid() && state == Leader && node < size
      requires 1 <= nextIndex[node] <= lastIndex + 1 && nextIndex[me] == lastIndex + |pendingLog| + 1
      ensures request == LightRequest(View(), me, nextIndex[node], LastSent(View(), me, size, node, isAlive), StripMsg)
      ensures request.leaderCommit == commitIndex
      ensures request.prevIndex + |request.entries| ==
              if IsMainNode(me, size, node) || MainNodeDead() then lastIndex + |pendingLog|
              else Max(commitIndex, nextIndex[node] - 1)
    {
      var first := nextIndex[node];
      var last := LastIndexFor(node);
      var entries := EntriesTo(first, last);
      request := AppendRequest(raftState[CURRENT_TERM], me, first - 1,
                               if first == 1 then 0 else raftLog[first - 1].term,
                               entries, commitIndex);
    }

    /** The session's call failed. */
    method CallFailed(node: nat)
      requires Valid() && state == Leader && node < size && node != me
      modifies this`isAlive, this`aliveMainNodesCount
      ensures Valid() && View() == old(View()) && isAlive == old(isAlive)[node := false]
    {
      if isAlive[node] {
        AliveChanges(me, size, isAlive, node, false);
        isAlive := isAlive[node := false];
        if IsMainNode(me, size, node) {
          aliveMainNodesCount := aliveMainNodesCount - 1;
        }
      }
    }

    /** The session's call came back, whatever its answer. */
    method CallSucceeded(node: nat)
      requires Valid() && state == Leader && node < size && node != me
      modifies this`isAlive, this`aliveMainNodesCount
      ensures Valid() && View() == old(View()) && isAlive == old(isAlive)[node := true]
    {
      if !isAlive[node] {
        AliveChanges(me, size, isAlive, node, true);
        isAlive := isAlive[node := true];
        if IsMainNode(me, size, node) {
          aliveMainNodesCount := aliveMainNodesCount + 1;
        }
      }
    }

    /** The follower holds all of the request. */
    method Confirm(node: nat, request: AppendRequest<Msg>)
      requires Valid() && state == Leader && node < size
      modifies this`matchIndex, this`nextIndex
      ensures Valid() && View() == Confirmed(old(View()), node, request)
    {
      matchIndex := matchIndex[node := request.prevIndex + |request.entries|];
      nextIndex := nextIndex[node := nextIndex[node] + |request.entries|];
    }

    method Acknowledge(node: nat, request: AppendRequest<Msg>)
      requires Valid() && state == Leader && node < size
      modifies this`matchIndex, this`nextIndex, this`commitIndex, this`offsets
      ensures Valid() && View() == Replica.UpdateCommitIndex(Confirmed(old(View()), node, request), size)
      ensures Placed(offsets, pendingRequests, old(commitIndex), commitIndex) && old(offsets.Keys) <= offsets.Keys
    {
      Confirm(node, request);
      UpdateCommitIndex();
    }

    /** The answer of a follower to the session's request. */
    method AppendAnswered(node: nat, request: AppendRequest<Msg>, reply: AppendReply)
      requires Valid() && state == Leader && node < size && node != me
      requires reply.term <= raftState[CURRENT_TERM] && !reply.success ==> nextIndex[node] >= 2
      modifies this`state, this`raftState, this`matchIndex, this`nextIndex, this`commitIndex, this`offsets,
               this`isAlive, this`aliveMainNodesCount
      ensures Valid() && View() == HandleAppendReply(old(View()), size, node, request, reply)
      ensures isAlive == old(isAlive)[node := true] && Placed(offsets, pendingRequests, old(commitIndex), commitIndex)
      ensures old(offsets.Keys) <= offsets.Keys
      ensures forall p: nat :: Miscount(p) == old(Miscount(p))
    {
      CallSucceeded(node);
      if reply.term > raftState[CURRENT_TERM] {
        UpdateTerm(reply.term, None);
        state := Follower;
        return;
      }
      if !reply.success {
        assert nextIndex[node] >= 2;
        nextIndex := nextIndex[node := nextIndex[node] - 1];
        return;
      }
      Acknowledge(node, request);
    }
  }

  /** A request whose entry its leader has committed, and which therefore carries no payload. */
  function LightRetry(hash: Hash): AppendRequest<Msg> { AppendRequest(1, 0, 0, 0, [Entry(1, Msg(7, hash, ""))], 1) }

  lemma FirstTime(hash: Hash, before: Node<Msg>)
    requires before == Restarted(0, None, [])
    ensures var (once, reply) := HandleAppend(before, LightRetry(hash));
            AppendChecks(before, LightRetry(hash)) && reply.success && once.log == LightRetry(hash).entries &&
            once.commit == 1 == once.term
  {}

  lemma SecondTime(hash: Hash, before: Node<Msg>)
    requires before.log == LightRetry(hash).entries && before.commit == 1 == before.term
    ensures var (twice, reply) := HandleAppend(before, LightRetry(hash));
            AppendChecks(before, LightRetry(hash)) && reply.success && twice.log == before.log
  {
    assert SameThere(before.log, LightRetry(hash), 0);
  }

  lemma CountsOne(hash: Hash)
    ensures Count(LightRetry(hash).entries, 7) == 1 && Count([], 7) == 0
  {
    assert LightRetry(hash).entries[..0] == [];
  }

  method ReceiveFirst(node: MetamorphosisNode, hash: Hash)
    requires node.Valid() && node.View() == Restarted(0, None, []) && node.Miscount(7) == 0
    modifies node
    ensures node.Valid() && node.Miscount(7) == 0
    ensures node.View().log == LightRetry(hash).entries && node.View().commit == 1 == node.View().term
  {
    FirstTime(hash, node.View());
    CountsOne(hash);
    var _ := node.AppendEntries(LightRetry(hash));
  }

  method ReceiveAgain(node: MetamorphosisNode, hash: Hash)
    requires node.Valid() && node.Miscount(7) == 0
    requires node.View().log == LightRetry(hash).entries && node.View().commit == 1 == node.View().term
    modifies node
    ensures node.Valid() && node.Miscount(7) == -1 && node.Log() == LightRetry(hash).entries
  {
    SecondTime(hash, node.View());
    CountsOne(hash);
    assert node.Log()[0..1] == LightRetry(hash).entries;
    var _ := node.AppendEntries(LightRetry(hash));
  }

  /** A counter can end too low: a plain retry of a request whose entry its leader has committed. */
  method RetryUncounts(md5: string -> Hash, text: string) returns (counter: int, messages: nat)
    requires text != ""
    ensures messages == 1 && counter == 0
  {
    var node := new MetamorphosisNode(md5, 1, 3, map[], map[], 0);
    ReceiveFirst(node, md5(text));
    ReceiveAgain(node, md5(text));
    CountsOne(md5(text));
    counter, messages := Counter(node.producerNextSequenceId, 7), node.lastIndex;
  }
}
