# Metamorphosis: a Dafny model of the replicated log and of the queue built on it

Metamorphosis is a message queue replicated by a variant of Raft. This project models its Raft
replica, the Metamorphosis replica, and four smaller pieces they rest on, and proves what they are
for: one log, one leader per term, linearizable client calls, payloads that survive although most
followers are sent hashes only.

`dafny verify dfyconfig.toml` checks everything.

## How it is built

| files | what they hold |
|---|---|
| `Entries`, `Replica`, `Cluster` | One replica as functions on its state, and the cluster as a step function over replicas, calls in flight and client calls. Each piece of the program between two waits is one step. The functions are generic in the log's values. |
| `Consensus`, `ConsensusSteps` | The history of a run (who acknowledged what in which term, who led with which log, what was committed) and the argument why it is safe. |
| `Coupling`, `ElectionSteps`, `ReplicationSteps` | How replicas and history belong together, and that every step keeps this. |
| `Safety`, `Acceptance`, `Reigns`, `WholeSends`, `LogRepair`, `LateRequest`, `CommitIndex` | What every run guarantees, stated about replicas and client calls only. |
| `Elections`, `Progress`, `Availability` | What one vote call and one answer do, field by field; and that from every state of every run a majority that hears from each other can elect a leader and commit. |
| `ExactlyOnce`, `Raft` | The exactly-once wrapper, and the answers of a Raft cluster to its clients. |
| `Mapping`, `Metamorphosis`, `Moves`, `CommitBounds`, `QueueInv`, `QueueSteps`, `QueueSafety`, `QueueReads`, `QueueRetries`, `DroppedCopy` | The queue. Its steps commute with translating values, so every queue run is a run of the replication protocol on messages that remember their text; the invariants of the payloads are proved on top. |
| `Storage`, `RaftNode`, `Counters`, `MainNodes`, `QueueNode` | The two replicas as objects that change in place, with their loops; each handler is proved to do what the function of `Replica` says. |
| `HistoryChecker`, `StopList`, `Clock` | The linearizability checker of the tests, the intrusive list of stop callbacks, the drifting clock of the simulator. |

The program differs from the published Raft algorithm, and the model follows the program. A leader
sends entries that it has not saved yet. A follower deletes its whole tail above the larger of the
previous index and its commit index on every accepted request, not only on a conflict. No empty
entry is appended at the start of a term. A vote reply carries the voter's old term. In Metamorphosis
a follower may be sent committed entries only, so a request need not carry the leader's whole suffix.

### The network

Safety rests on one hypothesis about AppendEntries: a session of a leader with a follower has at most
one call outstanding. A call that times out is cancelled before the next one is sent
(`src/raft/node/node.cpp:397-416`), and a call cancelled in transit is not handled
(`src/runtime/simulator/world.cpp:133-135`). `Cluster` has one slot per leader, term and follower, with
the steps send, deliver, return and lose. Any call or answer may be lost at any time. Vote calls may be
lost, delayed and repeated without bound. Nodes crash and restart at any time, keeping term, vote and log.

A second hypothesis is about scheduling: a session sends only when the entry before its first one is
saved. The program does not wait for that. It reads the entry's term from storage
(`src/raft/node/node.cpp:389-390`) and would abort if the entry were not there, which needs a follower to
acknowledge an entry before the leader's own main session has saved it. `Safety.LeaderChecksHold` covers
this read only while nothing is pending.

### Conventions

- Terms, indexes and identifiers are natural numbers: 64-bit wrap-around is not modelled. A producer
  counter is an integer, which the program keeps modulo 2^64.
- Storage is a map that changes atomically, as its write batches do.
- Clocks, random timeouts and the network become the free choice of the next step; the MD5 function and
  the replicated state machine are parameters. A client call's result is the list of requests executed
  when its entry was reached; `Raft` and `RaftNode` turn it into the machine's response.
- The step relation allows more than the program does: a leader may send any part of its suffix (in the
  queue: the whole of it or the committed part), whatever its main nodes do, and a stepped-down node may
  keep its unsaved entries until it is next elected.
- A failed internal check would abort the program. The checks are assertions in the objects' methods;
  what they need is a precondition there, and a theorem about every run elsewhere.

### What is not so

- A follower can lose its copy of a committed message: its acknowledgement is lost, the leader goes over
  to sending committed entries only, the message commits elsewhere, and then the shorter request arrives.
  `DroppedCopy.CommittedCopyDropped` is such a run, and every send in it is the one the program makes.
  `QueueRetries.QueueAcceptKeeps` says for every message, committed or not, exactly when an accepted
  request leaves it in place and when it leaves its payload in place; `Safety.AcceptKeeps` says it of Raft.
  Two kinds of request drop a committed copy. One is a request of the current leader that ends too early,
  as in that run; Raft's leaders send their whole suffix, and `WholeSends.AcceptExtends` shows that after
  the first acceptance in a term their requests drop nothing. The other is a delayed request of a leader
  of an earlier term than that of the commit, which carries an entry of another term at that index:
  `LateRequest.CommittedCopyReplaced` is such a run, with whole suffixes throughout. `Safety.AcceptKeeps`
  and `QueueRetries.QueueAcceptKeeps` cover this kind too; `Safety.FirstAcceptance`,
  `Safety.AcceptKeepsCommitted` and their queue versions are about what is committed by the term of the
  request. Either way a majority keeps the message and its payload: `QueueSafety.PayloadDurable`.
- The comment on the producer counters (`src/metamorphosis/node/node.cpp:797`) says that a counter is the
  number of the producer's messages in the log. After a retry that starts below the follower's commit
  index it is too low, by exactly the producer's messages in between: `Counters.ExactIff` gives the
  condition and `QueueNode.RetryUncounts` an example, with a request as a leader sends it.
- The history checker accepts two calls that claim the same place in the log
  (`HistoryChecker.SamePlaceAccepted`). That is its only mistake.
- On a clock that is slower than the global one a sleep of no duration can have a target in the past,
  which the program treats as an error (`Clock.SlowClock`); `Clock.SleepTarget` has the exact condition.
- A cluster of one node never has a leader, because votes are counted only when another node answers
  (`Availability.LoneNode`); from two nodes on every majority can commit (`Availability.RaftAvailable`).
- `doc/queue_protocol.md` plans that a spare replica receives data from the end of the log; the program
  sends from the follower's next index upwards, and the model does the same.

## Model

| member | source | states |
|---|---|---|
| RaftNode.RaftNode.constructor | src/raft/node/node.cpp:44-61 | a node starts as a follower with nothing committed and with the term, vote and log found in storage, term 0 when there is none |
| RaftNode.RaftNode.UpdateTerm | src/raft/node/node.cpp:630-640 | term and vote change together in storage; without a vote the old one is erased; nothing else changes |
| RaftNode.RaftNode.BecomeFollower | src/raft/node/node.cpp:310-319 | stepping down changes the role and no other field of the node |
| RaftNode.RaftNode.BecomeLeader | src/raft/node/node.cpp:297-308 | a new leader has no pending entries, next indexes just above its saved log and match indexes 0 |
| RaftNode.RaftNode.AppendEntries | src/raft/node/node.cpp:124-209 | the whole handler: the new state and the reply, which carries the old term, are those of `Replica.HandleAppend`, in the stale, the mismatched and the accepted case |
| RaftNode.RaftNode.Accept | src/raft/node/node.cpp:183-206 | an accepted request replaces the tail above the larger of previous and commit index, and what the leader committed of the result is applied |
| RaftNode.RaftNode.ApplyUpTo | src/raft/node/node.cpp:202-206 | the entries between the old and the new commit index are applied once each, in order |
| Storage.WriteBatch | src/raft/node/node.cpp:183-192 | the batch leaves keys 1 to n without a gap, and as a sequence the log is the kept prefix followed by the request's entries beyond it |
| Storage.PutAll | src/raft/node/node.cpp:357-361 | pending entries land above the saved log, in order, without a gap |
| RaftNode.RaftNode.CompareLogs | src/raft/node/node.cpp:245-266 | true exactly for a log that is at least as complete as this one, by last term and then length |
| RaftNode.RaftNode.RequestVote | src/raft/node/node.cpp:211-271 | the new state and the reply, which carries the old term, are those of `Replica.HandleVote`; the vote is granted if and only if it was given to the candidate in this term already, or none was given in it and the candidate's log is at least as complete; a higher term is joined, and its old vote forgotten, even when the vote is refused |
| RaftNode.RaftNode.Vote | src/raft/node/node.cpp:230-269 | the decision in the node's own term, and that a new vote is stored |
| RaftNode.RaftNode.Join | src/raft/node/node.cpp:546-554 | a higher term makes a follower of that term without a vote; log and commit index stay |
| Elections.VoteGranted | src/raft/node/node.cpp:211-271 | in the cluster: exactly when a vote call is answered with a vote, in the fields of voter and ballot, and exactly what changes at the voter, refusals that join the term included |
| Elections.Electable | src/raft/node/node.cpp:245-268 | among any nodes, the ballot of one whose log none of the others is ahead of, in a term above theirs, gets the vote of every other one, which stores it |
| Elections.MostComplete | src/raft/node/node.cpp:245-266 | any set of nodes has such a one |
| Elections.AnswerCounted | src/raft/node/node.cpp:546-568 | an answer of a higher term makes a follower of that term without a vote and with the same log and commit index; a node comes to lead if and only if it is a candidate of the ballot's term and this is the vote of a new voter that makes size / 2 + 1; any other answer changes nothing |
| Progress.Elect | src/raft/node/node.cpp:510-573 | from any healthy state the most complete node of a majority comes to lead, by steps of that majority |
| Progress.CatchUp | src/raft/node/node.cpp:383-453 | a leader that goes on sending brings any follower to accept, whatever its log: the leader then counts it, and the follower knows what is committed |
| Progress.Commits | src/raft/node/node.cpp:67-573 | from any healthy state a majority elects a leader, which has a new entry accepted, committed and answered, and lets every node of the majority know |
| Availability.RaftAvailable | src/raft/node/node.cpp:67-573 | from every state of every run with at least two nodes, for every majority, steps of these nodes alone, without crashes, without losing a call between them and with whole suffixes, end with a new client call committed and its entry committed at each of them |
| Availability.QueueAvailable | src/metamorphosis/node/node.cpp:68-584 | the same for the queue, where every request of the new leader is what the main-node rule makes the program send |
| Availability.LoneNode | src/raft/node/node.cpp:530-568 | a cluster of one node never has a leader |
| RaftNode.RaftNode.StartCandidate | src/raft/node/node.cpp:510-527 | an election moves to the next term with a vote for itself; the ballot describes the saved log |
| RaftNode.RaftNode.VoteAnswered | src/raft/node/node.cpp:546-568 | a voter counts once, in the election its ballot was for; exactly the majority-th vote makes a leader; a higher term makes a follower |
| RaftNode.RaftNode.Execute | src/raft/node/node.cpp:67-95 | only a leader accepts; the entry is pending under the reserved index and the call waits for that index |
| RaftNode.RaftNode.Reply | src/raft/node/node.cpp:103-117 | a woken call is refused if and only if the term has changed, and otherwise carries the exactly-once machine's response to the log up to its own index; its registration is gone |
| RaftNode.RaftNode.GetLogEntry | src/raft/node/node.cpp:608-616 | the entry at an index of the saved log followed by the pending entries |
| RaftNode.RaftNode.EntriesTo | src/raft/node/node.cpp:393-395 | the slice of the saved log followed by the pending entries |
| RaftNode.RaftNode.MakeRequest | src/raft/node/node.cpp:383-395 | a session's request carries the leader's whole suffix from the next index, saved or not |
| RaftNode.RaftNode.SavePending | src/raft/node/node.cpp:353-363 | the pending entries move to the end of the saved log and the leader's own match index is the new size |
| RaftNode.RaftNode.Flush | src/raft/node/node.cpp:353-365 | one round of the main session: save, then commit what a majority holds; waiting requests get their responses |
| RaftNode.RaftNode.AppendAnswered | src/raft/node/node.cpp:430-453 | the answer of a follower: step down, move the next index back, or record the match and commit |
| RaftNode.RaftNode.Confirm | src/raft/node/node.cpp:448-452 | match and next index of the follower move by what was sent |
| RaftNode.RaftNode.Acknowledge | src/raft/node/node.cpp:448-453 | match and next index move by what was sent, then the commit index is updated |
| RaftNode.RaftNode.ApplyAndSignal | src/raft/node/node.cpp:488-495 | each newly committed entry is applied once in order, and the request waiting for index k gets the exactly-once machine's response to the first k entries; results given before stay |
| RaftNode.RaftNode.UpdateCommitIndex | src/raft/node/node.cpp:467-498 | the new commit index is that of `Replica.UpdateCommitIndex`, and the requests up to it have their responses |
| CommitIndex.CountHolders | src/raft/node/node.cpp:472-477 | the inner loop counts the nodes whose match index reaches the index |
| CommitIndex.FindCommitIndex | src/raft/node/node.cpp:467-482 | the outer loop finds the highest index of the leader's own term that a majority holds, or stays |
| CommitIndex.HoldersReach | src/raft/node/node.cpp:472-478 | a majority holds an index if and only if the majority-th largest match index reaches it, for any descending arrangement |
| CommitIndex.CommitIsOrderStatistic | src/raft/node/node.cpp:467-498 | the new commit index is the majority-th largest match index cut to the saved log, when that is above the old one and of the leader's term; the entries up to it are applied once each in order; nothing else changes |
| Consensus.ChosenAlive | src/raft/node/node.cpp:467-482 | a committed entry cannot be given up by a majority |
| ConsensusSteps.UpToDateCovers | src/raft/node/node.cpp:245-266 | a candidate whose log is at least as complete by last term and length holds all a voter holds that may still be committed |
| ConsensusSteps.OneLeader | src/raft/node/node.cpp:563-568 | a term that has a leader cannot elect another node |
| ConsensusSteps.AppendDead | src/raft/node/node.cpp:77-85 | what a superseded leader still appends can never be committed |
| ConsensusSteps.FirstAcceptAbove | src/raft/node/node.cpp:441-446 | the probing argument: what a node acknowledged in earlier terms and may still be committed lies below the first previous index it accepts in a new term |
| ConsensusSteps.Choose | src/raft/node/node.cpp:470-482 | committing an own-term entry that a majority acknowledged keeps the invariant, later leaders included |
| ReplicationSteps.AcceptReady | src/raft/node/node.cpp:149-192 | an accepted request, however short, leaves the follower with a prefix of the leader's log that covers all the follower had committed |
| ReplicationSteps.NextStep | src/raft/node/node.cpp:67-576 | every step of the cluster, in any coupled state, has a step of the history that keeps the invariant and the coupling |
| Safety.RunHistory | src/raft/node/node.cpp:67-576 | every run of a cluster of any size has a history |
| Safety.ElectionSafety | src/raft/node/node.cpp:211-271 | at most one node ever leads a term, across crashes and restarts |
| Safety.LogMatching | src/raft/node/node.cpp:149-192 | logs of any two nodes at any two times, a leader's counted with its unsaved entries, that hold entries of equal index and term are identical up to there |
| Safety.LeaderCompleteness | src/raft/node/node.cpp:211-271 | what any node has committed is in the log of every leader of a later term, and of every later leader of its own |
| Safety.StateMachineSafety | src/raft/node/node.cpp:194-206 | any two nodes at any two times agree on what both have committed and have executed the same commands in the same order |
| Safety.MatchIndexSound | src/raft/node/node.cpp:381-453 | a follower still in the leader's term holds the leader's log up to its match index, and the next index lies above it |
| Reigns.MatchIndexGrows | src/raft/node/node.cpp:441-453 | while a node leads a term its match indexes never decrease |
| Reigns.RejectionsBounded | src/raft/node/node.cpp:441-446 | in every run a session has at most as many rejections in a reign as the leader's log had entries at its election, and its next index stays at least 1 |
| Reigns.OwnMatchHolds | src/raft/node/node.cpp:353-363 | a leader's own match index is unset until its first write and then the size of its saved log |
| Safety.AppendChecksHold | src/raft/node/node.cpp:149-181 | the checks inside the AppendEntries handler never fail |
| Safety.LeaderChecksHold | src/raft/node/node.cpp:383-446 | a leader's own indexes and next indexes are in range, and a rejection never arrives when the next index is 1; the previous entry that a request reads from storage is there while nothing is pending |
| Safety.WakeChecksHold | src/raft/node/node.cpp:101-115 | a call that wakes in its own term wakes at a leader, with a result |
| Safety.CommittedCall | src/raft/node/node.cpp:67-118 | for every committed call: its result lists as many executed commands as its index, its own last, and some node has executed exactly them by then |
| Safety.ExecuteLinearizable | src/raft/node/node.cpp:67-118 | a committed call's entry is the last of what was executed for its result; results of committed calls are prefixes of one order; a call that replied before another began comes first |
| Safety.CommittedCallApplied | src/raft/node/node.cpp:467-498 | a committed call's result is what every node that commits that far has executed, and its entry is in their logs at its index |
| Safety.FirstAcceptance | src/raft/node/node.cpp:149-192 | the first request a follower accepts in a term starts above every entry it holds that is committed by that term |
| Safety.AcceptKeeps | src/raft/node/node.cpp:183-192 | for every entry, committed or not: an accepted request leaves the follower's log up to it in place if and only if it lies below the previous or the follower's commit index, or the request carries an entry of the same term for it |
| Safety.AcceptKeepsCommitted | src/raft/node/node.cpp:183-192 | of an entry committed by the request's term: it stays if and only if the request reaches that far or the follower knows the entry to be committed |
| WholeSends.AcceptExtends | src/raft/node/node.cpp:393-395 | when leaders send their whole suffix, every request of a term that a follower accepts after the first leaves all the follower holds in place |
| LogRepair.Repair | src/raft/node/node.cpp:381-451 | for a stable leader and any follower not ahead of it: the next index goes down by one per rejection, never below 1, to the highest index at which the logs meet; the acceptance leaves the follower with the leader's log, unsaved entries included, and the leader knows it |
| LogRepair.SessionRound | src/raft/node/node.cpp:381-451 | one call of the session succeeds if and only if the logs meet at the previous index |
| LogRepair.AlwaysRepairable | src/raft/node/node.cpp:149-192 | in every run, whenever a session can send and its follower's term is not higher, all hypotheses of the repair are met, also when the follower is a leader of an earlier term |
| ExactlyOnce.RemembersPrevious | src/raft/node/state_machine_wrapper.cpp:9-24 | what is remembered of a client is its previous request, or id 0 |
| ExactlyOnce.ExecutesFresh | src/raft/node/state_machine_wrapper.cpp:9-24 | for any log the inner machine executes exactly the requests that differ from their client's previous one, in order |
| ExactlyOnce.FreshAnswered | src/raft/node/state_machine_wrapper.cpp:17-23 | such a request is answered by the inner machine after all it has executed |
| ExactlyOnce.FreshIsFirst | src/raft/node/state_machine_wrapper.cpp:17-23 | when ids are not 0 and copies are not separated by another request of the client, those are exactly the first copies |
| ExactlyOnce.ExecutesOnce | src/raft/node/state_machine_wrapper.cpp:9-24 | then every request is executed once, in the order of first occurrence |
| ExactlyOnce.StaysDisciplined | src/raft/node/state_machine_wrapper.cpp:9-24 | the hypothesis on copies is one on order: it is kept when requests are left out |
| ExactlyOnce.CopiesAnsweredAlike | src/raft/node/state_machine_wrapper.cpp:17-23 | then every copy is answered like the first, and a later one executes nothing |
| ExactlyOnce.ExactlyOnceStateMachine.constructor | src/raft/node/state_machine_wrapper.cpp:5-7 | a new wrapper has been given nothing |
| ExactlyOnce.ExactlyOnceStateMachine.Apply | src/raft/node/state_machine_wrapper.cpp:9-24 | the object that updates its map in place answers as the log of all it was given says |
| Raft.RaftRun | src/raft/node/node.cpp:67-576 | a run of the Raft cluster is a run of the replication protocol |
| Raft.CallAnswered | src/raft/node/node.cpp:67-118 | every committed call is answered with the exactly-once machine's response to what some node has executed by then up to the call's index, where its own request is |
| Raft.ExecuteAnswers | src/raft/node/node.cpp:67-118 | there is one order of requests; a committed call sits in it at its own index, its response is the exactly-once machine's there, and real time is respected |
| Acceptance.LogFollows | src/raft/node/node.cpp:76-85 | the log of every node, a leader's unsaved entries included, lists calls that leaders accepted, each at the index it was given, in the order of their acceptance |
| Acceptance.CommittedInOrder | src/raft/node/node.cpp:76-117 | of two committed calls the one accepted first has the lower index |
| Raft.ExecutedFollows | src/raft/node/node.cpp:76-85 | what a node's state machine has executed are accepted requests in the order of their acceptance |
| Raft.ResultFollows | src/raft/node/node.cpp:76-117 | so is the order behind the response to a committed call |
| Raft.ExecutedOnce | src/raft/node/state_machine_wrapper.cpp:9-24 | if copies are not separated by another request of the client in the order in which leaders accept calls, every node executes each request once, in the order of first occurrence |
| Raft.ClientsAnsweredAlike | src/raft/node/state_machine_wrapper.cpp:9-24 | then two committed calls for one request are answered alike, the one accepted first has the lower index, and the other executes nothing |
| Raft.RetriesAnsweredAlike | src/raft/node/state_machine_wrapper.cpp:9-24 | the same when copies are not separated in the order behind the second response only |
| Raft.AppendChecksHold | src/raft/node/node.cpp:149-181 | in every run of the Raft cluster the checks inside the AppendEntries handler, which are preconditions of the object, hold |
| Raft.LeaderChecksHold | src/raft/node/node.cpp:383-446 | so do the range checks of a leader and its sessions; the previous entry is saved while nothing is pending |
| Raft.WakeChecksHold | src/raft/node/node.cpp:101-115 | so do the checks of a call that wakes in its own term |
| Mapping.MapNext | src/metamorphosis/node/node.cpp:179-616 | the replication steps never look inside a value: translating all values of a step gives a step |
| Metamorphosis.TagRun | src/metamorphosis/node/node.cpp:477-490 | every queue run is what is left of a run whose messages remember their text |
| Metamorphosis.CoreStep | src/metamorphosis/node/node.cpp:460-490 | with the text in place of payloads every queue step is a replication step |
| CommitBounds.FirstAboveCommit | src/metamorphosis/node/node.cpp:209-222 | the first request a follower accepts in a term starts at or above its commit index |
| CommitBounds.BoundsStep | src/metamorphosis/node/node.cpp:251-277 | every step keeps a follower's commit index within the start of its leader's requests and the commit index they carry |
| QueueSteps.QueueStepKeeps | src/metamorphosis/node/node.cpp:179-616 | every step keeps the payload invariants: copies without payload are of committed entries, and a majority keeps each committed payload |
| QueueSafety.QueueElectionSafety | src/metamorphosis/node/node.cpp:282-345 | at most one node ever leads a term |
| QueueSafety.QueueLogMatching | src/metamorphosis/node/node.cpp:207-267 | logs that hold entries of equal index and term agree up to there in term, producer and hash, and in payload wherever both have one |
| QueueSafety.QueueAgreement | src/metamorphosis/node/node.cpp:269-277 | any two nodes at any two times agree on what both have committed |
| QueueSafety.QueueLeaderCompleteness | src/metamorphosis/node/node.cpp:460-584 | although followers may be sent committed entries only, what any node has committed is in the log of every leader of a later term |
| QueueSafety.PayloadDurable | src/metamorphosis/node/node.cpp:251-267 | a message that any node has had below its commit index at any time has one text, and at every later time, restarts included, that text is in the persistent logs of a majority |
| QueueSafety.HashOnlyCommitted | src/metamorphosis/node/node.cpp:483-490 | a stored copy without payload is of a message that some node has had below its commit index, and a majority holds the payload |
| QueueSafety.HashOnlyInFlight | src/metamorphosis/node/node.cpp:483-490 | the same of a copy in flight |
| QueueReads.ReadConsistent | src/metamorphosis/node/node.cpp:144-173 | all nodes that have committed an offset answer a read of it about one text, at any times: full answers carry it, hash-only answers its hash |
| QueueReads.ReadsAgree | src/metamorphosis/node/node.cpp:144-173 | any two answers to a read of one offset that carry a message or a hash are about one text, whatever the nodes have committed when they are asked |
| QueueReads.ReadAnswers | src/metamorphosis/node/node.cpp:149-168 | in every state of every run a read carries a message or a hash if and only if 1 <= offset <= commit index, and then that of the log; it finds nothing if and only if the offset is above the commit index; it fails if and only if the offset is 0 |
| QueueReads.AppendReadBack | src/metamorphosis/node/node.cpp:94-142 | whoever answers a read of an acknowledged append's offset answers about the message that was appended |
| QueueReads.AppendOrder | src/metamorphosis/node/node.cpp:97-139 | acknowledged appends have different offsets: one accepted before another has the smaller one, and so has one acknowledged before the other was made |
| QueueReads.QueueLogFollows | src/metamorphosis/node/node.cpp:97-108 | the log of every node lists copies of accepted messages, each at the offset it was given, in the order of their acceptance |
| QueueReads.RequestsLight | src/metamorphosis/node/node.cpp:483-490 | in every run no request in flight carries the payload of a message that its sender knew to be committed |
| QueueReads.QueueChecksHold | src/metamorphosis/node/node.cpp:207-242 | the checks inside the AppendEntries handler never fail, even when a retry has lost payloads that the first attempt carried |
| QueueReads.QueueLeaderChecksHold | src/metamorphosis/node/node.cpp:466-561 | a leader's own indexes and next indexes are in range, and a rejection never arrives when the next index is 1; the previous entry is saved while nothing is pending |
| QueueReads.QueueWakeChecksHold | src/metamorphosis/node/node.cpp:124-139 | an append that wakes in its own term wakes at a leader |
| QueueRetries.QueueFirstAcceptance | src/metamorphosis/node/node.cpp:207-267 | the first request a follower accepts in a term starts above every message it holds that is committed by that term |
| QueueRetries.QueueAcceptKeeps | src/metamorphosis/node/node.cpp:251-267 | for every message, committed or not: exactly when an accepted request leaves it in place, and exactly when it leaves the copy unchanged, payload included |
| QueueRetries.QueueAcceptKeepsCommitted | src/metamorphosis/node/node.cpp:251-267 | of a message committed by the request's term: a copy stays, with or without its payload, if and only if the request reaches that far or the follower knows the message to be committed |
| LateRequest.CommittedCopyReplaced | src/raft/node/node.cpp:124-209 | a run of five nodes, with whole suffixes throughout, in which a delayed request of an earlier leader replaces a follower's copy of a committed entry |
| DroppedCopy.CommittedCopyDropped | src/metamorphosis/node/node.cpp:460-584 | a run of three nodes in which a follower drops its copy of a committed message, and in which every request is what the main-node rule makes the program send |
| DroppedCopy.AliveStep | src/metamorphosis/node/node.cpp:520-543 | how each step of that run changes what the leader's sessions think of their followers |
| MainNodes.MainGroupIsMajority | src/metamorphosis/node/node.cpp:758-766 | the leader and its main nodes are exactly as many as a majority, wherever the leader is |
| MainNodes.AliveMajorityReached | src/metamorphosis/node/node.cpp:477-481 | whenever the leader and the followers it thinks alive are a majority, so are the leader and those of them that are sent everything it has |
| MainNodes.OnlyMainReached | src/metamorphosis/node/node.cpp:477-481 | while all main nodes are alive exactly the main nodes are sent more than the committed part, and with the leader they number size / 2 + 1 |
| MainNodes.AllMainAlive | src/metamorphosis/node/node.cpp:477-481 | the count of alive main nodes equals the majority if and only if no main node is thought dead |
| QueueNode.MetamorphosisNode.constructor | src/metamorphosis/node/node.cpp:41-62 | start-up from storage; every counter is the number of its producer's messages in the log |
| QueueNode.MetamorphosisNode.Append | src/metamorphosis/node/node.cpp:68-118 | accepted if and only if the node leads, the producer has nothing pending and the sequence id is its counter; then the message is pending with its hash; otherwise nothing changes, and the refusal says exactly which of the three failed first, a wrong sequence id together with the counter |
| QueueNode.MetamorphosisNode.Reply | src/metamorphosis/node/node.cpp:83-141 | a woken append is refused if and only if the term has changed, and otherwise carries its own index, which is committed, as offset, and the producer's counter; the producer's mark and the registration are gone |
| QueueNode.MetamorphosisNode.Read | src/metamorphosis/node/node.cpp:144-173 | the answer is that of `QueueReads.Read`: nothing above the commit index, an error for offset 0, and otherwise the payload of the saved message or its hash |
| QueueNode.MetamorphosisNode.UpdateTerm | src/metamorphosis/node/node.cpp:700-710 | term and vote change together in storage |
| QueueNode.MetamorphosisNode.StoreEntries | src/metamorphosis/node/node.cpp:244-267 | the log is as in Raft, and every counter's error changes by minus the producer's messages between the previous and the commit index |
| QueueNode.MetamorphosisNode.AppendEntries | src/metamorphosis/node/node.cpp:179-280 | the new state and the reply are those of `Replica.HandleAppend`; an accepted request with a previous index at or above the commit index keeps the error of every counter |
| QueueNode.MetamorphosisNode.BecomeLeader | src/metamorphosis/node/node.cpp:371-383 | as in Raft, and every session believes in its follower |
| QueueNode.MetamorphosisNode.SavePending | src/metamorphosis/node/node.cpp:428-442 | pending entries are saved and counted exactly, and their producers may append again |
| QueueNode.MetamorphosisNode.Flush | src/metamorphosis/node/node.cpp:428-444 | one round of the main session; counters keep their error and waiting requests get their offsets |
| QueueNode.MetamorphosisNode.UpdateCommitIndex | src/metamorphosis/node/node.cpp:586-616 | the commit index moves as in Raft, and the request waiting for an index gets that index as offset |
| QueueNode.MetamorphosisNode.EntriesTo | src/metamorphosis/node/node.cpp:483-490 | the entries to send, without payload exactly where they are committed |
| QueueNode.MetamorphosisNode.MakeRequest | src/metamorphosis/node/node.cpp:466-490 | a follower is sent committed entries only if and only if it is no main node and all main nodes are alive, and the whole suffix otherwise; the request carries the commit index |
| QueueNode.MetamorphosisNode.CallFailed | src/metamorphosis/node/node.cpp:520-533 | a failed call marks the follower dead and the count of alive main nodes stays right |
| QueueNode.MetamorphosisNode.CallSucceeded | src/metamorphosis/node/node.cpp:535-543 | an answered call marks the follower alive and the count of alive main nodes stays right |
| QueueNode.MetamorphosisNode.AppendAnswered | src/metamorphosis/node/node.cpp:535-570 | the answer of a follower has the effect it has in Raft; counters keep their error |
| Counters.CountAll | src/metamorphosis/node/node.cpp:59-61 | the start-up loop counts every producer's messages |
| Counters.Uncount | src/metamorphosis/node/node.cpp:244-249 | the first loop takes off every counter what follows the previous index |
| Counters.CountedBatch | src/metamorphosis/node/node.cpp:251-267 | the second loop writes and counts what is new above the larger of previous and commit index |
| Counters.CountedPutAll | src/metamorphosis/node/node.cpp:432-440 | the flush loop writes and counts the pending entries and clears their producers' marks |
| Counters.AcceptedError | src/metamorphosis/node/node.cpp:244-267 | the error of a counter changes by exactly minus the producer's messages that lie between the previous and the commit index |
| Counters.ExactIff | src/metamorphosis/node/node.cpp:244-267 | an exact counter stays exact if and only if the producer has no message there |
| QueueNode.RetryUncounts | src/metamorphosis/node/node.cpp:244-267 | after a plain retry of a request whose entry its leader has committed, a counter is 0 with one message in the log |
| HistoryChecker.CheckLinearizability | src/raft/test/util/history_checker.cpp:7-44 | for any history with non-empty results: it is linearizable, by one log and points in time within every call's interval, if and only if it is accepted and no two calls claim one place in the log |
| HistoryChecker.CheckIsExact | src/raft/test/util/history_checker.cpp:13-41 | the three checks on any copy sorted by length decide that |
| HistoryChecker.SortByLength | src/raft/test/util/history_checker.cpp:9-11 | a permutation of the history, sorted by the length of the results |
| HistoryChecker.CheckPrefixes | src/raft/test/util/history_checker.cpp:20-28 | true if and only if every result is a prefix of the last one |
| HistoryChecker.CheckOrder | src/raft/test/util/history_checker.cpp:30-41 | true if and only if no call ends before a call begins that the sorting puts no later |
| HistoryChecker.SamePlaceAccepted | src/raft/test/util/history_checker.cpp:30-41 | two copies of one call are accepted although they are not linearizable |
| StopList.StopState.constructor | src/runtime/util/cancellation/stop_state.h:11-20 | a new state has no callbacks and is not cancelled |
| StopList.StopState.Bypass | src/runtime/util/cancellation/stop_callback.h:65-74 | the neighbours of the callback and the head of the list point past it |
| StopList.StopState.Unlink | src/runtime/util/cancellation/stop_callback.h:64-78 | the list without the callback, still linked both ways; nothing happens to a callback that is not in it |
| StopList.StopState.Execute | src/runtime/util/cancellation/stop_callback.h:59-62 | the callback runs and leaves the list |
| StopList.StopState.Register | src/runtime/util/cancellation/stop_callback.h:27-47 | a new callback goes to the front, or runs at once when the state is cancelled |
| StopList.StopState.Destroy | src/runtime/util/cancellation/stop_callback.h:49-56 | a destroyed callback is no longer in the list |
| StopList.StopState.Stop | src/runtime/util/cancellation/stop_source.cpp:24-34 | the loop ends with every callback of the list run once, newest first, and the list empty |
| StopList.Perform | src/runtime/util/cancellation/stop_callback.h:27-78 | any sequence of registrations, destructions and stops leaves a well-linked list whose contents are those of `StopList.After` |
| StopList.ListMeaning | src/runtime/util/cancellation/stop_callback.h:27-78 | over any such sequence the list holds exactly the callbacks registered, not destroyed and not stopped, and exactly those ran that a stop found alive or that were registered after one |
| StopList.RunsOnce | src/runtime/util/cancellation/stop_source.cpp:24-34 | no callback is twice in the list, none runs twice, and while one waits none has run |
| StopList.ListOrder | src/runtime/util/cancellation/stop_callback.h:40-46 | callbacks registered later come first |
| StopList.RunOrder | src/runtime/util/cancellation/stop_source.cpp:24-34 | of two callbacks that ran, both registered before the first stop, the newer ran first; otherwise they ran in the order of registration |
| Clock.BinarySearch | src/util/binary_search.h:4-14 | the result lies in the interval, the predicate holds there or it is the end, and fails just below or it is the beginning; for a predicate that does not change its mind it is the first point where it holds; an empty interval gives its beginning |
| Clock.LocalRate | src/runtime/simulator/host.cpp:53-60 | a clock shows its start time at time 0 and advances 1 + drift times as fast as global time, rounded by less than a tick |
| Clock.LocalGrows | src/runtime/simulator/host.cpp:53-60 | a clock with drift at least -1 never shows less later; with drift at least 0 it advances at least as fast as global time |
| Clock.ToGlobalTime | src/runtime/simulator/host.cpp:62-71 | for every global time in range: the result has come if and only if the clock shows at least the local time |
| Clock.RoundTrip | src/runtime/simulator/host.cpp:53-71 | global to local and back is the same time if and only if the clock moved at that tick, and always for drift at least 0 |
| Clock.SleepTarget | src/runtime/simulator/host.cpp:26-34 | a sleep's target is not in the past if and only if the tick before showed less than the wake-up time, and never is for drift at least 0 |
| Clock.SlowClock | src/runtime/simulator/host.cpp:33-34 | with drift -1/2 a sleep of no duration from time 2 has an earlier target |

## Left out

- gRPC, protobuf, RocksDB, serialisation, command line programs, logging and code generators: plumbing over libraries; storage is an atomic map.
- The fiber scheduler, the event queue of the simulator's world and pausing of hosts: a paused host can reorder its calls, which the network hypothesis excludes.
- Time: election timeouts, heartbeats, retry delays. That a majority can go on is proved; that it does, which rests on the timers, is not.
- QueueNode.MetamorphosisNode.Append: idempotence across the cluster is not claimed; counters are exact only under the stated condition, and a producer's pending mark can be cleared while a later append of the producer waits.
- Admission of appends in the cluster model: a leader of the queue may accept any non-empty message, whatever its sequence id.
- The election handlers of the Metamorphosis replica as an object: they repeat those of the Raft replica; the cluster model has them.
- RaftNode.RaftNode.BecomeFollower: waking the calls that wait at a leader is part of the cluster's step (`Cluster.Become`), not of the object.
- Safety.LeaderChecksHold: that the previous entry is saved when a session sends while entries are pending is the scheduling hypothesis above; it is not proved.
- Raft.LeaderChecksHold: the same hypothesis.
- QueueReads.QueueLeaderChecksHold: the same hypothesis.
- Raft.ClientsAnsweredAlike: that clients keep the order of their requests (`ExactlyOnce.Disciplined`) is assumed of the calls leaders accept; the client's own loop, which gives up after some attempts, is not modelled.
- LogRepair.Repair: no call of the session is lost and the leader stays leader; a lost call leaves the next index where it is.
- StopList.StopState.Register: tokens without a state, for which nothing happens, locks, memory order and reference counts are not modelled; a callback does not touch its own stop state.
- Clock.ToGlobalTime: drift is a real number, so floating-point rounding is not modelled, and a clock that runs backwards (drift below -1) is excluded.
- HistoryChecker.CheckLinearizability: a history with an empty result is excluded, because the program reads the last element of every result.
- 64-bit wrap-around of terms, indexes and identifiers.
- The Raft client's retry loop, the single-replica queue service, results, latches, events and parsing of endpoints and durations: only easy members.
