/** The Raft cluster, whose values are client requests, and the answers its clients get. */
module Raft {
  import opened Entries
  import opened Replica
  import opened Cluster
  import opened Mapping
  import opened ExactlyOnce
  import Acceptance
  import Safety

  function AsCommand(r: Request): Value { Command(r) }

  function Commands(worlds: seq<World<Request>>): (r: seq<World<Value>>)
    ensures |r| == |worlds| && forall i :: 0 <= i < |worlds| ==> r[i] == MapWorld(AsCommand, worlds[i])
  {
    seq(|worlds|, i requires 0 <= i < |worlds| => MapWorld(AsCommand, worlds[i]))
  }

  function CommandActions(actions: seq<Action<Request>>): (r: seq<Action<Value>>)
    ensures |r| == |actions| && forall i :: 0 <= i < |actions| ==> r[i] == MapAction(AsCommand, actions[i])
  {
    seq(|actions|, i requires 0 <= i < |actions| => MapAction(AsCommand, actions[i]))
  }

  /** A run of the Raft cluster is a run of the replication protocol. */
  lemma RaftRun(size: nat, worlds: seq<World<Request>>, actions: seq<Action<Request>>)
    requires IsRun(size, worlds, actions)
    ensures IsRun(size, Commands(worlds), CommandActions(actions))
  {
    assert MapLog(AsCommand, []) == [] && MapSeq(AsCommand, []) == [];
    assert MapCalls(AsCommand, []) == [] && MapRpcs(AsCommand, map[]) == map[];
    assert MapWorld(AsCommand, Init(size)) == Init(size);
    forall i | 0 <= i < |actions|
      ensures Enabled(Commands(worlds)[i], CommandActions(actions)[i]) &&
              Commands(worlds)[i + 1] == Next(Commands(worlds)[i], CommandActions(actions)[i])
    {
      var s, a := worlds[i], actions[i];
      assert Enabled(s, a) && worlds[i + 1] == Next(s, a);
      MapNext(AsCommand, s, a);
    }
  }

  lemma CommandsInjective(a: seq<Request>, b: seq<Request>)
    ensures MapSeq(AsCommand, a) <= MapSeq(AsCommand, b) <==> a <= b
    ensures |MapSeq(AsCommand, a)| == |a|
  {
    var x, y := MapSeq(AsCommand, a), MapSeq(AsCommand, b);
    if x <= y {
      forall k | 0 <= k < |a| ensures a[k] == b[k] { assert x[k] == y[k]; }
    }
  }

  /** What the state machine answers to a call whose result is the given list of executed requests. */
  function Answer(machine: Machine, c: Call<Request>): string
    requires c.phase.Committed? && c.phase.applied != []
  {
    Response(machine, c.phase.applied)
  }

  /** A committed call is answered with the exactly-once machine's response to the first requests of
      an order in which it is the last, and which some node has executed by then. */
  lemma CallAnswered(machine: Machine, size: nat, worlds: seq<World<Request>>, actions: seq<Action<Request>>, i: nat,
                     k: nat)
      returns (t: nat, a: nat)
    requires IsRun(size, worlds, actions) && i < |worlds|
    requires k < |worlds[i].calls| && worlds[i].calls[k].phase.Committed?
    ensures var c := worlds[i].calls[k];
            && 1 <= c.index == |c.phase.applied| && c.phase.applied[c.index - 1] == c.value
            && t <= i && a < |worlds[t].nodes| && c.index <= worlds[t].nodes[a].commit
            && c.index <= |worlds[t].nodes[a].applied| && worlds[t].nodes[a].applied[c.index - 1] == c.value
            && Answer(machine, c) == Response(machine, worlds[t].nodes[a].applied[..c.index])
  {
    RaftRun(size, worlds, actions);
    t, a := Safety.CommittedCall(size, Commands(worlds), CommandActions(actions), i, k);
    var c, n := worlds[i].calls[k], worlds[t].nodes[a];
    assert Commands(worlds)[i].calls[k] == MapCall(AsCommand, c);
    assert Commands(worlds)[t].nodes[a] == MapNode(AsCommand, n);
    CommandsInjective(c.phase.applied, n.applied);
    assert MapSeq(AsCommand, c.phase.applied)[c.index - 1] == AsCommand(c.value);
    assert c.phase.applied == n.applied[..c.index];
  }

  /** Execute is linearizable, response included. There is one order of requests, the longer of the
      two results; a committed call sits in it at its own index; its answer is the exactly-once
      machine's answer to the order up to there; and a call that replied before another began comes
      first. */
  lemma ExecuteAnswers(machine: Machine, size: nat, worlds: seq<World<Request>>, actions: seq<Action<Request>>,
                       i: nat, k: nat, m: nat)
    requires IsRun(size, worlds, actions) && i < |worlds|
    requires k < |worlds[i].calls| && m < |worlds[i].calls| && k != m
    requires worlds[i].calls[k].phase.Committed? && worlds[i].calls[m].phase.Committed?
    requires worlds[i].calls[k].index <= worlds[i].calls[m].index
    ensures var c, d := worlds[i].calls[k], worlds[i].calls[m];
            && 1 <= c.index < d.index == |d.phase.applied| && c.phase.applied == d.phase.applied[..c.index]
            && d.phase.applied[c.index - 1] == c.value && d.phase.applied[d.index - 1] == d.value
            && Answer(machine, c) == Response(machine, d.phase.applied[..c.index])
            && !(d.phase.at < c.started)
  {
    RaftRun(size, worlds, actions);
    Safety.ExecuteLinearizable(size, Commands(worlds), CommandActions(actions), i, k, m);
    Safety.ExecuteLinearizable(size, Commands(worlds), CommandActions(actions), i, m, k);
    var c, d := worlds[i].calls[k], worlds[i].calls[m];
    CommandsInjective(c.phase.applied, d.phase.applied);
  }

  // ---------------------------------------------------------------- retries

  /** The requests accepted from clients, by whichever leaders, in the order of acceptance. */
  function Accepted(calls: seq<Call<Request>>): (r: seq<Request>)
    ensures |r| == |calls| && forall k :: 0 <= k < |calls| ==> r[k] == calls[k].value
  {
    seq(|calls|, k requires 0 <= k < |calls| => calls[k].value)
  }

  /** What the state machine of a node has executed are accepted requests, in the order of their
      acceptance. */
  lemma ExecutedFollows(size: nat, worlds: seq<World<Request>>, actions: seq<Action<Request>>, i: nat, a: nat)
      returns (at: seq<nat>)
    requires IsRun(size, worlds, actions) && i < |worlds| && a < |worlds[i].nodes|
    ensures Picks(worlds[i].nodes[a].applied, Accepted(worlds[i].calls), at)
  {
    RaftRun(size, worlds, actions);
    var cores, acts := Commands(worlds), CommandActions(actions);
    at := Acceptance.LogFollows(size, cores, acts, i, a);
    Safety.StateMachineSafety(size, cores, acts, i, i, a, a);
    AppliedPicks(worlds[i], a, at);
    at := at[..worlds[i].nodes[a].commit];
  }

  lemma AppliedPicks(s: World<Request>, a: nat, at: seq<nat>)
    requires a < |s.nodes| && s.nodes[a].commit <= |s.nodes[a].log|
    requires var n := MapNode(AsCommand, s.nodes[a]);
             n.applied == Values(n.log[..n.commit]) &&
             Acceptance.Follows(Safety.FullLog(n), MapCalls(AsCommand, s.calls), at)
    ensures s.nodes[a].commit <= |at| && Picks(s.nodes[a].applied, Accepted(s.calls), at[..s.nodes[a].commit])
  {
    var applied, n := s.nodes[a].applied, MapNode(AsCommand, s.nodes[a]);
    forall p | 0 <= p < n.commit ensures at[p] < |s.calls| && applied[p] == s.calls[at[p]].value {
      assert Acceptance.AcceptedBy(MapCalls(AsCommand, s.calls)[at[p]], Safety.FullLog(n)[p], p + 1);
      assert AsCommand(applied[p]) == n.applied[p] == n.log[..n.commit][p].value;
    }
  }

  /** So is the order behind the answer to a committed call. */
  lemma ResultFollows(size: nat, worlds: seq<World<Request>>, actions: seq<Action<Request>>, i: nat, k: nat)
      returns (at: seq<nat>)
    requires IsRun(size, worlds, actions) && i < |worlds|
    requires k < |worlds[i].calls| && worlds[i].calls[k].phase.Committed?
    ensures Picks(worlds[i].calls[k].phase.applied, Accepted(worlds[i].calls), at)
  {
    RaftRun(size, worlds, actions);
    var cores, acts := Commands(worlds), CommandActions(actions);
    var t, a := Safety.CommittedCall(size, cores, acts, i, k);
    at := ExecutedFollows(size, worlds, actions, t, a);
    CommandsInjective(worlds[i].calls[k].phase.applied, worlds[t].nodes[a].applied);
    at := at[..|worlds[i].calls[k].phase.applied|];
    Acceptance.CallsPersist(size, cores, acts, t, i);
    AcceptedStays(worlds[t].calls, worlds[i].calls);
  }

  lemma AcceptedStays(calls: seq<Call<Request>>, calls': seq<Call<Request>>)
    requires Acceptance.CallsGrow(MapCalls(AsCommand, calls), MapCalls(AsCommand, calls'))
    ensures Accepted(calls) <= Accepted(calls')
  {
    var cores, cores' := MapCalls(AsCommand, calls), MapCalls(AsCommand, calls');
    forall k | 0 <= k < |calls| ensures calls'[k].value == calls[k].value {
      assert Acceptance.SameCall(cores[k], cores'[k]);
    }
  }

  /** If leaders accept the requests of a client in disciplined order, every node executes each of them
      once, however often the client retries. */
  lemma ExecutedOnce(machine: Machine, size: nat, worlds: seq<World<Request>>, actions: seq<Action<Request>>, i: nat,
                     a: nat)
    requires IsRun(size, worlds, actions) && i < |worlds| && a < |worlds[i].nodes|
    requires Disciplined(Accepted(worlds[i].calls))
    ensures var applied := worlds[i].nodes[a].applied;
            Run(machine, applied).executed == Pick(applied, (j: nat) => FirstCopy(applied, j), |applied|)
  {
    var at := ExecutedFollows(size, worlds, actions, i, a);
    StaysDisciplined(worlds[i].nodes[a].applied, Accepted(worlds[i].calls), at);
    ExactlyOnce.ExecutesOnce(machine, worlds[i].nodes[a].applied);
  }

  /** If leaders accept the requests of clients in disciplined order, a client gets one answer for all
      its attempts: two committed calls with the same client and request id are answered alike, the
      one accepted first has the lower index, and the other executes nothing. */
  lemma ClientsAnsweredAlike(machine: Machine, size: nat, worlds: seq<World<Request>>, actions: seq<Action<Request>>,
                             i: nat, k: nat, m: nat)
    requires IsRun(size, worlds, actions) && i < |worlds| && k < m < |worlds[i].calls|
    requires worlds[i].calls[k].phase.Committed? && worlds[i].calls[m].phase.Committed?
    requires SameRequest(worlds[i].calls[k].value, worlds[i].calls[m].value)
    requires Disciplined(Accepted(worlds[i].calls))
    ensures var c, d := worlds[i].calls[k], worlds[i].calls[m];
            && 1 <= c.index == |c.phase.applied| < d.index == |d.phase.applied|
            && Answer(machine, c) == Answer(machine, d)
            && Run(machine, d.phase.applied).executed == Run(machine, d.phase.applied[..d.index - 1]).executed
  {
    RaftRun(size, worlds, actions);
    Acceptance.CommittedInOrder(size, Commands(worlds), CommandActions(actions), i, k, m);
    var at := ResultFollows(size, worlds, actions, i, m);
    StaysDisciplined(worlds[i].calls[m].phase.applied, Accepted(worlds[i].calls), at);
    RetriesAnsweredAlike(machine, size, worlds, actions, i, k, m);
  }

  /** The same of one order: two committed calls with the same client and request id are answered
      alike if copies are not separated in the order up to the second, which executes nothing. */
  lemma RetriesAnsweredAlike(machine: Machine, size: nat, worlds: seq<World<Request>>, actions: seq<Action<Request>>,
                             i: nat, k: nat, m: nat)
    requires IsRun(size, worlds, actions) && i < |worlds|
    requires k < |worlds[i].calls| && m < |worlds[i].calls| && k != m
    requires worlds[i].calls[k].phase.Committed? && worlds[i].calls[m].phase.Committed?
    requires worlds[i].calls[k].index <= worlds[i].calls[m].index
    requires SameRequest(worlds[i].calls[k].value, worlds[i].calls[m].value)
    requires Disciplined(worlds[i].calls[m].phase.applied)
    ensures var c, d := worlds[i].calls[k], worlds[i].calls[m];
            && 1 <= c.index == |c.phase.applied| < d.index == |d.phase.applied|
            && Answer(machine, c) == Answer(machine, d)
            && Run(machine, d.phase.applied).executed == Run(machine, d.phase.applied[..d.index - 1]).executed
  {
    ExecuteAnswers(machine, size, worlds, actions, i, k, m);
    AnsweredAlike(machine, worlds[i].calls[k], worlds[i].calls[m]);
  }

  lemma AnsweredAlike(machine: Machine, c: Call<Request>, d: Call<Request>)
    requires c.phase.Committed? && d.phase.Committed? && 1 <= c.index < d.index == |d.phase.applied|
    requires c.phase.applied == d.phase.applied[..c.index]
    requires d.phase.applied[c.index - 1] == c.value && d.phase.applied[d.index - 1] == d.value
    requires SameRequest(c.value, d.value) && Disciplined(d.phase.applied)
    ensures Answer(machine, c) == Answer(machine, d)
    ensures Run(machine, d.phase.applied).executed == Run(machine, d.phase.applied[..d.index - 1]).executed
  {
    CopiesAnsweredAlike(machine, d.phase.applied, c.index - 1, d.index - 1);
    assert d.phase.applied[..d.index] == d.phase.applied;
  }

  // ---------------------------------------------------------------- internal checks

  /** The checks inside the AppendEntries handler never fail. */
  lemma AppendChecksHold(size: nat, worlds: seq<World<Request>>, actions: seq<Action<Request>>, i: nat, link: Link)
    requires IsRun(size, worlds, actions) && i < |worlds| && CanDeliver(worlds[i], link)
    ensures AppendChecks(worlds[i].nodes[link.follower], worlds[i].rpcs[link].request)
  {
    RaftRun(size, worlds, actions);
    Safety.AppendChecksHold(size, Commands(worlds), CommandActions(actions), i, link);
    CommandChecks(worlds[i].nodes[link.follower], worlds[i].rpcs[link].request);
  }

  lemma CommandChecks(n: Node<Request>, r: AppendRequest<Request>)
    requires AppendChecks(MapNode(AsCommand, n), MapRequest(AsCommand, r))
    ensures AppendChecks(n, r)
  {
    var log, request := MapLog(AsCommand, n.log), MapRequest(AsCommand, r);
    assert LogMatches(n.log, r) ==> LogMatches(log, request);
    forall k | r.term >= n.term && LogMatches(n.log, r) && r.prevIndex <= k < n.commit && k - r.prevIndex < |r.entries|
      ensures SameThere(n.log, r, k)
    {
      assert SameThere(log, request, k);
      assert log[k] == MapEntry(AsCommand, n.log[k]);
    }
  }

  /** The leader's checks hold: its own indexes are in range, a session's next index is at least 1,
      and a rejection never arrives when it is already 1. */
  lemma LeaderChecksHold(size: nat, worlds: seq<World<Request>>, actions: seq<Action<Request>>, i: nat, l: nat)
    requires IsRun(size, worlds, actions) && i < |worlds| && l < |worlds[i].nodes| && worlds[i].nodes[l].role == Leader
    ensures var s := worlds[i]; var n := s.nodes[l];
            Leads(s, l) && n.nextIndex[l] == |n.log| + |n.pending| + 1 && n.commit <= |n.log| &&
            (forall f :: 0 <= f < |s.nodes| ==> 1 <= n.nextIndex[f] <= n.nextIndex[l]) &&
            (n.pending == [] ==> forall f :: 0 <= f < |s.nodes| ==> n.nextIndex[f] - 1 <= |n.log|) &&
            (forall f :: 0 <= f < |s.nodes| && CanReturn(s, Link(l, n.term, f)) ==>
               var rpc := s.rpcs[Link(l, n.term, f)];
               !rpc.reply.success && rpc.reply.term <= n.term ==> n.nextIndex[f] >= 2)
  {
    RaftRun(size, worlds, actions);
    Safety.LeaderChecksHold(size, Commands(worlds), CommandActions(actions), i, l);
    var s, core := worlds[i], Commands(worlds)[i];
    var n := s.nodes[l];
    assert Leads(core, l) && core.nodes[l] == MapNode(AsCommand, n);
    forall f | 0 <= f < |s.nodes| && CanReturn(s, Link(l, n.term, f))
      ensures var rpc := s.rpcs[Link(l, n.term, f)];
              !rpc.reply.success && rpc.reply.term <= n.term ==> n.nextIndex[f] >= 2
    {
      assert CanReturn(core, Link(l, n.term, f));
    }
  }

  /** A client call that wakes in its own term wakes at a leader, with a result. */
  lemma WakeChecksHold(size: nat, worlds: seq<World<Request>>, actions: seq<Action<Request>>, i: nat, id: nat)
    requires IsRun(size, worlds, actions) && i < |worlds| && CanWake(worlds[i], id)
    ensures var c := worlds[i].calls[id]; var n := worlds[i].nodes[c.node];
            n.term == c.term ==> n.role == Leader && c.phase.result.Some?
  {
    RaftRun(size, worlds, actions);
    assert Commands(worlds)[i].calls[id] == MapCall(AsCommand, worlds[i].calls[id]);
    Safety.WakeChecksHold(size, Commands(worlds), CommandActions(actions), i, id);
  }
}
