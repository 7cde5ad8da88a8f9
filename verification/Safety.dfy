/** What every run of the cluster guarantees, whatever is lost, delayed or crashes.

    The statements are about the replicas and the client calls only; the history of the run
    appears in the proofs.
 */
module Safety {
  import opened Entries
  import opened Replica
  import opened Cluster
  import opened Consensus
  import opened Coupling
  import opened ReplicationSteps
  import Moves

  /** A leader's log counts its unsaved entries. */
  function FullLog<V>(n: Node<V>): seq<Entry<V>> {
    if n.role == Leader then n.log + n.pending else n.log
  }

  // ---------------------------------------------------------------- runs have histories

  /** New acknowledgements and new commits have their cause in the step. */
  ghost predicate Grows(s: Net, s': Net, h: State, h': State) {
    Joins(s, s', h, h') && Witnessed(s', h, h')
  }

  ghost predicate Blank(h: State) {
    h.commits == {} && h.lead == map[] && forall n :: 0 <= n < |h.peers| ==> h.peers[n].acc == map[]
  }

  ghost predicate IsHistory(worlds: seq<Net>, hs: seq<State>) {
    && |hs| == |worlds| > 0 && Blank(hs[0])
    && (forall i {:trigger Inv(hs[i])} :: 0 <= i < |hs| ==> Inv(hs[i]) && Coupled(worlds[i], hs[i]))
    && (forall i, j {:trigger Evolves(hs[i], hs[j])} :: 0 <= i <= j < |hs| ==> Evolves(hs[i], hs[j]))
    && (forall i {:trigger Grows(worlds[i], worlds[i + 1], hs[i], hs[i + 1])} ::
          0 <= i < |hs| - 1 ==> Grows(worlds[i], worlds[i + 1], hs[i], hs[i + 1]))
  }

  lemma InitHistory(size: nat) returns (h: State)
    ensures Inv(h) && Coupled(Init(size), h) && Blank(h)
  {
    h := State(seq(size, _ => Peer(0, [], 0, map[], map[], map[])), map[], {});
  }

  lemma {:induction false} RunHistory(size: nat, worlds: seq<Net>, actions: seq<Action<Value>>)
      returns (hs: seq<State>)
    requires IsRun(size, worlds, actions)
    ensures IsHistory(worlds, hs)
    decreases |actions|
  {
    if |actions| == 0 {
      hs := StartHistory(size, worlds);
    } else {
      var last := |actions| - 1;
      ShorterRun(size, worlds, actions);
      var before := RunHistory(size, worlds[..last + 1], actions[..last]);
      hs := NextHistory(worlds, before, actions[last]);
    }
  }

  lemma StartHistory(size: nat, worlds: seq<Net>) returns (hs: seq<State>)
    requires worlds == [Init(size)]
    ensures IsHistory(worlds, hs)
  {
    var h := InitHistory(size);
    hs := [h];
    ElectionSteps.EvolvesReflexive(h);
  }

  lemma ShorterRun(size: nat, worlds: seq<Net>, actions: seq<Action<Value>>)
    requires IsRun(size, worlds, actions) && actions != []
    ensures var last := |actions| - 1;
            && IsRun(size, worlds[..last + 1], actions[..last])
            && Enabled(worlds[last], actions[last]) && worlds[last + 1] == Next(worlds[last], actions[last])
  {}

  lemma NextHistory(worlds: seq<Net>, before: seq<State>, a: Action<Value>) returns (hs: seq<State>)
    requires |worlds| == |before| + 1 && IsHistory(worlds[..|before|], before)
    requires Enabled(worlds[|before| - 1], a) && worlds[|before|] == Next(worlds[|before| - 1], a)
    ensures IsHistory(worlds, hs)
  {
    var last := |before| - 1;
    assert Inv(before[last]);
    var h := NextStep(worlds[last], before[last], a);
    hs := before + [h];
    LongerHistory(worlds, before, h);
  }

  lemma LongerHistory(worlds: seq<Net>, before: seq<State>, h: State)
    requires |worlds| == |before| + 1 && IsHistory(worlds[..|before|], before) && Inv(h)
    requires var last := |before| - 1;
             Coupled(worlds[last + 1], h) && Evolves(before[last], h) &&
             Grows(worlds[last], worlds[last + 1], before[last], h)
    ensures IsHistory(worlds, before + [h])
  {
    var last, hs := |before| - 1, before + [h];
    ElectionSteps.EvolvesReflexive(h);
    forall i, j | 0 <= i <= j < |hs| ensures Evolves(hs[i], hs[j]) {
      if j <= last {
        assert Evolves(before[i], before[j]);
      } else if i <= last {
        assert Evolves(before[i], before[last]);
        EvolvesTransitive(before[i], before[last], h);
      }
    }
    forall i | 0 <= i < |hs| ensures Inv(hs[i]) && Coupled(worlds[i], hs[i]) {
      if i <= last { assert Inv(before[i]); }
    }
    forall i | 0 <= i < |hs| - 1 ensures Grows(worlds[i], worlds[i + 1], hs[i], hs[i + 1]) {
      if i < last { assert Grows(worlds[..last + 1][i], worlds[..last + 1][i + 1], before[i], before[i + 1]); }
    }
  }

  /** Every commit was once the commit index of a leader. */
  lemma {:induction false} CommitSeen(worlds: seq<Net>, hs: seq<State>, i: nat, c: Commit)
      returns (t: nat, l: nat)
    requires IsHistory(worlds, hs) && i < |hs| && c in hs[i].commits
    ensures t <= i && CommitsAt(worlds[t], l, c)
    decreases i
  {
    var j := i - 1;
    assert Grows(worlds[j], worlds[j + 1], hs[j], hs[j + 1]);
    if c in hs[j].commits {
      t, l := CommitSeen(worlds, hs, j, c);
    } else {
      t := i;
      l :| CommitsAt(worlds[i], l, c);
    }
  }

  /** Node f accepted a request of term t at step k. */
  ghost predicate AcceptedAt(worlds: seq<Net>, k: nat, f: nat, t: nat) {
    k + 1 < |worlds| && exists link :: Accepts(worlds[k], worlds[k + 1], link) && link.follower == f && link.term == t
  }

  /** Who acknowledged in a term led it or accepted a request of it. */
  lemma {:induction false} AcceptSeen(worlds: seq<Net>, hs: seq<State>, i: nat, f: nat, t: nat)
    requires IsHistory(worlds, hs) && i < |hs| && f < |hs[i].peers| && t in hs[i].peers[f].acc
    ensures (exists k: nat :: k < i && AcceptedAt(worlds, k, f, t)) || (t in hs[i].lead && hs[i].lead[t].owner == f)
    decreases i
  {
    var j := i - 1;
    assert Grows(worlds[j], worlds[j + 1], hs[j], hs[j + 1]);
    assert Evolves(hs[j], hs[i]);
    if t in hs[j].peers[f].acc {
      AcceptSeen(worlds, hs, j, f, t);
      if t in hs[j].lead { assert ReignEvolves(hs[j].lead[t], hs[i].lead[t]); }
    } else if worlds[i].nodes[f].role == Leader && worlds[i].nodes[f].term == t {
      assert Inv(hs[i]);
      assert NodeOk(hs[i], f, worlds[i].nodes[f]);
    } else {
      assert AcceptedAt(worlds, j, f, t);
    }
  }

  lemma HistoryNode(worlds: seq<Net>, hs: seq<State>, i: nat, a: nat)
    requires IsHistory(worlds, hs) && i < |worlds| && a < |worlds[i].nodes|
    ensures Inv(hs[i]) && Coupled(worlds[i], hs[i]) && |hs[i].peers| == |worlds[i].nodes|
    ensures NodeOk(hs[i], a, worlds[i].nodes[a]) && NodeInv(hs[i], a)
  {
    assert Inv(hs[i]);
    assert NodeOk(hs[i], a, worlds[i].nodes[a]);
  }

  /** What a node has committed at time i is known in the history of any later time j. */
  lemma CommittedKnown(worlds: seq<Net>, hs: seq<State>, i: nat, j: nat, a: nat)
    requires IsHistory(worlds, hs) && i <= j < |worlds| && a < |worlds[i].nodes|
    ensures var n := worlds[i].nodes[a]; Known(hs[j], n.term, n.log, n.commit)
  {
    HistoryNode(worlds, hs, i, a);
    var n := worlds[i].nodes[a];
    assert Evolves(hs[i], hs[j]);
    KnownStays(hs[i], hs[j], n.term, n.term, n.log, n.commit);
  }

  /** The log of a leader at time i is a prefix of its term's log at any later time j. */
  lemma LeaderLogStays(worlds: seq<Net>, hs: seq<State>, i: nat, j: nat, a: nat)
    requires IsHistory(worlds, hs) && i <= j < |worlds| && a < |worlds[i].nodes| && worlds[i].nodes[a].role == Leader
    ensures var n := worlds[i].nodes[a];
            n.term in hs[j].lead && hs[j].lead[n.term].owner == a &&
            hs[j].lead[n.term].base <= |n.log| && Agree(FullLog(n), hs[j].lead[n.term].log, |FullLog(n)|)
  {
    HistoryNode(worlds, hs, i, a);
    assert Evolves(hs[i], hs[j]);
    assert ReignEvolves(hs[i].lead[worlds[i].nodes[a].term], hs[j].lead[worlds[i].nodes[a].term]);
  }

  lemma AgreePrefix(a: Log, b: Log, k: nat)
    requires Agree(a, b, k)
    ensures a[..k] <= b && a[..k] == b[..k]
  {}

  // ---------------------------------------------------------------- elections and logs

  /** Election safety: at most one node is ever leader in a term. */
  lemma ElectionSafety(size: nat, worlds: seq<Net>, actions: seq<Action<Value>>, i: nat, j: nat, a: nat, b: nat)
    requires IsRun(size, worlds, actions) && i < |worlds| && j < |worlds|
    requires a < |worlds[i].nodes| && b < |worlds[j].nodes|
    requires worlds[i].nodes[a].role == Leader && worlds[j].nodes[b].role == Leader
    requires worlds[i].nodes[a].term == worlds[j].nodes[b].term
    ensures a == b
  {
    var hs := RunHistory(size, worlds, actions);
    LeaderLogStays(worlds, hs, i, Max(i, j), a);
    LeaderLogStays(worlds, hs, j, Max(i, j), b);
  }

  lemma FullLogSound(worlds: seq<Net>, hs: seq<State>, i: nat, j: nat, a: nat)
    requires IsHistory(worlds, hs) && i <= j < |worlds| && a < |worlds[i].nodes|
    ensures Sound(hs[j], FullLog(worlds[i].nodes[a]))
  {
    HistoryNode(worlds, hs, i, a);
    var n := worlds[i].nodes[a];
    if n.role == Leader { assert ReignOk(hs[i], n.term); }
    assert Evolves(hs[i], hs[j]);
    SoundStays(hs[i], hs[j], FullLog(n));
  }

  /** Log matching: entries of equal index and term, at any two nodes and times, sit on equal logs. */
  lemma LogMatching(size: nat, worlds: seq<Net>, actions: seq<Action<Value>>, i: nat, j: nat, a: nat, b: nat, q: nat)
    requires IsRun(size, worlds, actions) && i < |worlds| && j < |worlds|
    requires a < |worlds[i].nodes| && b < |worlds[j].nodes|
    requires Matches(FullLog(worlds[i].nodes[a]), FullLog(worlds[j].nodes[b]), q)
    ensures FullLog(worlds[i].nodes[a])[..q] == FullLog(worlds[j].nodes[b])[..q]
  {
    var hs := RunHistory(size, worlds, actions);
    FullLogSound(worlds, hs, i, Max(i, j), a);
    FullLogSound(worlds, hs, j, Max(i, j), b);
    MatchingLogs(hs[Max(i, j)], FullLog(worlds[i].nodes[a]), FullLog(worlds[j].nodes[b]), q);
  }

  // ---------------------------------------------------------------- commitment

  /** Leader completeness: what any node has committed is in the log of every leader of a later
      term, at any time, and of every later leader of the same term. */
  lemma LeaderCompleteness(size: nat, worlds: seq<Net>, actions: seq<Action<Value>>, i: nat, j: nat, a: nat, l: nat)
    requires IsRun(size, worlds, actions) && i < |worlds| && j < |worlds|
    requires a < |worlds[i].nodes| && l < |worlds[j].nodes| && worlds[j].nodes[l].role == Leader
    requires worlds[i].nodes[a].term < worlds[j].nodes[l].term ||
             (worlds[i].nodes[a].term == worlds[j].nodes[l].term && i <= j)
    ensures var n := worlds[i].nodes[a];
            n.commit <= |n.log| && n.log[..n.commit] <= FullLog(worlds[j].nodes[l])
  {
    var hs := RunHistory(size, worlds, actions);
    var n, leader, k := worlds[i].nodes[a], worlds[j].nodes[l], Max(i, j);
    CommittedKnown(worlds, hs, i, k, a);
    LeaderLogStays(worlds, hs, j, k, l);
    HistoryNode(worlds, hs, i, a);
    assert Inv(hs[k]);
    if n.commit > 0 {
      var c :| KnownBy(hs[k], c, n.term, n.log, n.commit);
      if c.term < leader.term {
        Completeness(hs[k], c, leader.term);
      } else {
        HistoryNode(worlds, hs, j, l);
        CommittedKnown(worlds, hs, i, j, a);
        KnownInLead(hs[j], n.term, n.log, n.commit);
      }
      AgreePrefix(n.log, FullLog(leader), n.commit);
    }
  }

  /** State machine safety: any two nodes, at any two times, agree on what both have committed,
      and their state machines have executed the same commands in the same order. */
  lemma StateMachineSafety(size: nat, worlds: seq<Net>, actions: seq<Action<Value>>, i: nat, j: nat, a: nat, b: nat)
    requires IsRun(size, worlds, actions) && i < |worlds| && j < |worlds|
    requires a < |worlds[i].nodes| && b < |worlds[j].nodes|
    requires worlds[i].nodes[a].commit <= worlds[j].nodes[b].commit
    ensures var n, m := worlds[i].nodes[a], worlds[j].nodes[b];
            n.commit <= |n.log| && m.commit <= |m.log| && n.log[..n.commit] <= m.log[..m.commit] &&
            n.applied <= m.applied && m.applied == Values(m.log[..m.commit])
  {
    var hs := RunHistory(size, worlds, actions);
    var n, m, k := worlds[i].nodes[a], worlds[j].nodes[b], Max(i, j);
    CommittedKnown(worlds, hs, i, k, a);
    CommittedKnown(worlds, hs, j, k, b);
    HistoryNode(worlds, hs, i, a);
    HistoryNode(worlds, hs, j, b);
    assert Inv(hs[k]);
    KnownAgree(hs[k], n.term, n.log, n.commit, m.term, m.log, m.commit);
    AgreePrefix(n.log, m.log, n.commit);
  }

  /** match_index is sound: a follower still in the leader's term holds the leader's log up to it,
      and the next index lies above it. */
  lemma MatchIndexSound(size: nat, worlds: seq<Net>, actions: seq<Action<Value>>, i: nat, l: nat, f: nat)
    requires IsRun(size, worlds, actions) && i < |worlds|
    requires l < |worlds[i].nodes| && f < |worlds[i].nodes| && f != l && worlds[i].nodes[l].role == Leader
    ensures var leader, n := worlds[i].nodes[l], worlds[i].nodes[f];
            Shaped(leader, |worlds[i].nodes|) && leader.matchIndex[f] + 1 <= leader.nextIndex[f] &&
            (n.term == leader.term ==>
               leader.matchIndex[f] <= |n.log| && n.log[..leader.matchIndex[f]] <= FullLog(leader))
  {
    var hs := RunHistory(size, worlds, actions);
    HistoryNode(worlds, hs, i, l);
    HistoryNode(worlds, hs, i, f);
    var leader, n := worlds[i].nodes[l], worlds[i].nodes[f];
    assert SessionOk(hs[i], leader.term, f, leader.nextIndex[f], leader.matchIndex[f]);
    if n.term == leader.term && leader.matchIndex[f] > 0 {
      assert Agree(n.log, FullLog(leader), leader.matchIndex[f]);
      AgreePrefix(n.log, FullLog(leader), leader.matchIndex[f]);
    }
  }

  // ---------------------------------------------------------------- internal checks

  /** The checks inside the AppendEntries handler never fail. */
  lemma AppendChecksHold(size: nat, worlds: seq<Net>, actions: seq<Action<Value>>, i: nat, link: Link)
    requires IsRun(size, worlds, actions) && i < |worlds| && CanDeliver(worlds[i], link)
    ensures AppendChecks(worlds[i].nodes[link.follower], worlds[i].rpcs[link].request)
  {
    var hs := RunHistory(size, worlds, actions);
    var s, h := worlds[i], hs[i];
    HistoryNode(worlds, hs, i, link.follower);
    assert RpcOk(h, link, s.rpcs[link]);
    var n, r := s.nodes[link.follower], s.rpcs[link].request;
    if n.term <= r.term && LogMatches(n.log, r) {
      KnownStaysUp(h, n.term, link.term, n.log, n.commit);
      KnownInLead(h, link.term, n.log, n.commit);
    }
  }

  lemma KnownStaysUp(h: State, t: nat, t': nat, log: Log, k: nat)
    requires Known(h, t, log, k) && t <= t'
    ensures Known(h, t', log, k)
  {
    ElectionSteps.EvolvesReflexive(h);
    KnownStays(h, h, t, t', log, k);
  }

  /** A leader's own indexes are in range, a session's next index is at least 1, and a rejection
      never arrives when it is already 1. The entry before a next index is saved whenever nothing is
      pending. */
  lemma LeaderChecksHold(size: nat, worlds: seq<Net>, actions: seq<Action<Value>>, i: nat, l: nat)
    requires IsRun(size, worlds, actions) && i < |worlds| && l < |worlds[i].nodes| && worlds[i].nodes[l].role == Leader
    ensures var s := worlds[i]; var n := s.nodes[l];
            Leads(s, l) && n.nextIndex[l] == |n.log| + |n.pending| + 1 && n.commit <= |n.log| &&
            (forall f :: 0 <= f < |s.nodes| ==> 1 <= n.nextIndex[f] <= n.nextIndex[l]) &&
            (n.pending == [] ==> forall f :: 0 <= f < |s.nodes| ==> n.nextIndex[f] - 1 <= |n.log|) &&
            (forall f :: 0 <= f < |s.nodes| && CanReturn(s, Link(l, n.term, f)) ==>
               var rpc := s.rpcs[Link(l, n.term, f)];
               !rpc.reply.success && rpc.reply.term <= n.term ==> n.nextIndex[f] >= 2)
  {
    var hs := RunHistory(size, worlds, actions);
    HistoryNode(worlds, hs, i, l);
    var s, h := worlds[i], hs[i];
    var n := s.nodes[l];
    forall f | 0 <= f < |s.nodes| ensures 1 <= n.nextIndex[f] <= n.nextIndex[l] {
      if f != l { assert SessionOk(h, n.term, f, n.nextIndex[f], n.matchIndex[f]); }
    }
    forall f | 0 <= f < |s.nodes| && CanReturn(s, Link(l, n.term, f))
      ensures var rpc := s.rpcs[Link(l, n.term, f)];
              !rpc.reply.success && rpc.reply.term <= n.term ==> n.nextIndex[f] >= 2
    {
      assert RpcOk(h, Link(l, n.term, f), s.rpcs[Link(l, n.term, f)]);
    }
  }

  /** A client call that wakes in its own term wakes at a leader, with a result. */
  lemma WakeChecksHold(size: nat, worlds: seq<Net>, actions: seq<Action<Value>>, i: nat, id: nat)
    requires IsRun(size, worlds, actions) && i < |worlds| && CanWake(worlds[i], id)
    ensures var c := worlds[i].calls[id]; var n := worlds[i].nodes[c.node];
            n.term == c.term ==> n.role == Leader && c.phase.result.Some?
  {
    var hs := RunHistory(size, worlds, actions);
    assert Inv(hs[i]);
    WokenCall(worlds[i], hs[i], id);
  }

  // ---------------------------------------------------------------- linearizability

  /** Execute is linearizable. A committed call's own entry is the last of what the state machine
      had executed for its result; the results of any two committed calls are prefixes of one
      order; and a call that replied before another began comes before it. */
  lemma ExecuteLinearizable(size: nat, worlds: seq<Net>, actions: seq<Action<Value>>, i: nat, k: nat, m: nat)
    requires IsRun(size, worlds, actions) && i < |worlds|
    requires k < |worlds[i].calls| && m < |worlds[i].calls| && k != m
    requires worlds[i].calls[k].phase.Committed? && worlds[i].calls[m].phase.Committed?
    ensures var c, d := worlds[i].calls[k], worlds[i].calls[m];
            && 1 <= c.index == |c.phase.applied| && c.phase.applied[c.index - 1] == c.value
            && c.index != d.index
            && (c.index < d.index ==> c.phase.applied < d.phase.applied)
            && (c.phase.at < d.started ==> c.index < d.index)
  {
    var hs := RunHistory(size, worlds, actions);
    var s, h := worlds[i], hs[i];
    assert Inv(h);
    var c, d := s.calls[k], s.calls[m];
    assert CallOk(s, h, c) && CallOk(s, h, d) && RealTime(h, c, d);
    var lc, ld := h.lead[c.term].log, h.lead[d.term].log;
    if c.index <= d.index {
      KnownAgree(h, c.term, lc, c.index, d.term, ld, d.index);
    } else {
      KnownAgree(h, d.term, ld, d.index, c.term, lc, c.index);
    }
    NotDoomed(h, d);
  }

  /** A single committed call: its result lists as many executed commands as its index says, its own
      last, and some node has had that index committed by then. */
  lemma CommittedCall(size: nat, worlds: seq<Net>, actions: seq<Action<Value>>, i: nat, k: nat) returns (t: nat, a: nat)
    requires IsRun(size, worlds, actions) && i < |worlds|
    requires k < |worlds[i].calls| && worlds[i].calls[k].phase.Committed?
    ensures var c := worlds[i].calls[k];
            && 1 <= c.index == |c.phase.applied| && c.phase.applied[c.index - 1] == c.value
            && t <= i && a < |worlds[t].nodes| && c.index <= worlds[t].nodes[a].commit
            && c.phase.applied <= worlds[t].nodes[a].applied
  {
    var hs := RunHistory(size, worlds, actions);
    var c, h := worlds[i].calls[k], hs[i];
    assert Inv(h);
    CommittedResult(worlds, hs, i, i, k);
    var cm :| KnownBy(h, cm, c.term, h.lead[c.term].log, c.index);
    t, a := CommitSeen(worlds, hs, i, cm);
    CommittedCallApplied(size, worlds, actions, i, k, t, a);
  }

  lemma NotDoomed(h: State, c: Call<Value>)
    requires Inv(h) && c.term in h.lead && Known(h, c.term, h.lead[c.term].log, c.index)
    requires h.lead[c.term].base < c.index <= |h.lead[c.term].log|
    ensures !Dead(h, c.term, c.index)
  {
    var log := h.lead[c.term].log;
    var cm :| KnownBy(h, cm, c.term, log, c.index);
    assert Chosen(h, cm) && ReignOk(h, c.term) && ReignOk(h, cm.term);
    var e := log[c.index - 1];
    assert e.term == c.term && e == h.lead[cm.term].log[c.index - 1] && e.term <= cm.term;
    var q :| ChosenBy(h, cm, q);
    forall d ensures !DeadBy(h, c.term, c.index, d) {
      if IsQuorum(|h.peers|, d) {
        var n := QuorumsMeet(|h.peers|, q, d);
        assert NodeInv(h, n);
      }
    }
  }

  /** A committed call's result is what every node that commits that far has executed. */
  lemma CommittedCallApplied(size: nat, worlds: seq<Net>, actions: seq<Action<Value>>, i: nat, k: nat, j: nat, a: nat)
    requires IsRun(size, worlds, actions) && i < |worlds| && j < |worlds|
    requires k < |worlds[i].calls| && worlds[i].calls[k].phase.Committed? && a < |worlds[j].nodes|
    requires worlds[i].calls[k].index <= worlds[j].nodes[a].commit
    ensures var c, n := worlds[i].calls[k], worlds[j].nodes[a];
            c.phase.applied <= n.applied && 1 <= c.index <= n.commit <= |n.log| &&
            n.log[c.index - 1] == Entry(c.term, c.value)
  {
    var hs := RunHistory(size, worlds, actions);
    var c, n, t := worlds[i].calls[k], worlds[j].nodes[a], Max(i, j);
    CommittedResult(worlds, hs, i, t, k);
    CommittedKnown(worlds, hs, j, t, a);
    HistoryNode(worlds, hs, j, a);
    assert Inv(hs[t]);
    KnownAgree(hs[t], c.term, hs[t].lead[c.term].log, c.index, n.term, n.log, n.commit);
  }

  lemma CommittedResult(worlds: seq<Net>, hs: seq<State>, i: nat, j: nat, k: nat)
    requires IsHistory(worlds, hs) && i <= j < |worlds| && k < |worlds[i].calls| && worlds[i].calls[k].phase.Committed?
    ensures var c := worlds[i].calls[k];
            ResultOk(hs[j], c, c.phase.applied) && 1 <= c.index <= |hs[j].lead[c.term].log| &&
            hs[j].lead[c.term].log[c.index - 1] == Entry(c.term, c.value)
  {
    var c := worlds[i].calls[k];
    assert Inv(hs[i]) && Evolves(hs[i], hs[j]);
    assert CallOk(worlds[i], hs[i], c);
    ResultStays(hs[i], hs[j], c, c.phase.applied);
    assert ReignEvolves(hs[i].lead[c.term], hs[j].lead[c.term]);
  }

  // ---------------------------------------------------------------- truncation

  /** The first j entries of the log are committed by term t: some node of a term up to t has, at
      some time, the same entries below its commit index. */
  ghost predicate CommittedBy(worlds: seq<Net>, t: nat, log: Log, j: nat) {
    exists i: nat, a: nat :: CommittedThere(worlds, i, a, t, log, j)
  }

  ghost predicate CommittedThere(worlds: seq<Net>, i: nat, a: nat, t: nat, log: Log, j: nat) {
    i < |worlds| && a < |worlds[i].nodes| &&
    var n := worlds[i].nodes[a];
    n.term <= t && j <= n.commit <= |n.log| && Agree(log, n.log, j)
  }

  /** What is committed by a term is in the log of its leader. */
  lemma CommittedInLead(worlds: seq<Net>, hs: seq<State>, i: nat, t: nat, log: Log, j: nat)
    requires IsHistory(worlds, hs) && i < |worlds| && t in hs[i].lead && CommittedBy(worlds, t, log, j) && j > 0
    ensures var late := hs[|hs| - 1];
            t in late.lead && Agree(log, late.lead[t].log, j) && ReignEvolves(hs[i].lead[t], late.lead[t])
  {
    var k: nat, a: nat :| CommittedThere(worlds, k, a, t, log, j);
    var n, late := worlds[k].nodes[a], hs[|hs| - 1];
    assert Evolves(hs[i], late);
    assert ReignEvolves(hs[i].lead[t], late.lead[t]);
    CommittedKnown(worlds, hs, k, |worlds| - 1, a);
    assert Inv(late);
    KnownStaysUp(late, n.term, t, n.log, n.commit);
    KnownInLead(late, t, n.log, n.commit);
  }

  /** The first request a follower accepts in a term starts above every entry it holds that is
      committed by that term, so that however short it is, none of them is truncated. */
  lemma FirstAcceptance(size: nat, worlds: seq<Net>, actions: seq<Action<Value>>, i: nat, link: Link, j: nat)
    requires IsRun(size, worlds, actions) && i + 1 < |worlds| && Accepts(worlds[i], worlds[i + 1], link)
    requires forall k: nat :: k < i ==> !AcceptedAt(worlds, k, link.follower, link.term)
    requires j <= |worlds[i].nodes[link.follower].log|
    requires CommittedBy(worlds, link.term, worlds[i].nodes[link.follower].log, j)
    ensures j <= worlds[i].rpcs[link].request.prevIndex
  {
    var hs := RunHistory(size, worlds, actions);
    var f, t, h := link.follower, link.term, hs[i];
    HistoryNode(worlds, hs, i, f);
    assert RpcOk(h, link, worlds[i].rpcs[link]) && ReignOk(h, t);
    if t in h.peers[f].acc { AcceptSeen(worlds, hs, i, f, t); }
    if j > 0 {
      CommittedInLead(worlds, hs, i, t, worlds[i].nodes[f].log, j);
      FreshAbove(h, hs[|hs| - 1], link, worlds[i].rpcs[link].request, worlds[i].nodes[f], j);
    }
  }

  lemma FreshAbove(h: State, late: State, link: Link, r: AppendRequest<Value>, n: Node<Value>, j: nat)
    requires Inv(h) && Inv(late) && RpcOk(h, link, Sent(r)) && SameNode(n, h.peers[link.follower])
    requires n.term <= link.term && link.term !in h.peers[link.follower].acc && 1 <= j <= |n.log|
    requires link.term in late.lead && ReignEvolves(h.lead[link.term], late.lead[link.term])
    requires Agree(n.log, late.lead[link.term].log, j)
    ensures j <= r.prevIndex
  {
    var f, t := link.follower, link.term;
    assert NodeInv(h, f) && ReignOk(h, t) && ReignOk(late, t);
    assert n.log[j - 1].term < t && j <= h.lead[t].base;
    assert Matches(n.log, h.lead[t].log, j);
  }

  /** An accepted request leaves the follower with a prefix of the leader's log. */
  lemma AcceptedPrefix(s: Net, s': Net, h: State, link: Link)
    requires Inv(h) && |s.nodes| == |h.peers| && Accepts(s, s', link)
    requires RpcOk(h, link, s.rpcs[link]) && NodeOk(h, link.follower, s.nodes[link.follower])
    ensures var n, n', r := s.nodes[link.follower], s'.nodes[link.follower], s.rpcs[link].request;
            var k := Max(r.prevIndex + |r.entries|, n.commit);
            link.term in h.lead && k <= |h.lead[link.term].log| && n'.log == h.lead[link.term].log[..k]
  {
    Moves.AcceptedNode(s, s', link);
    StoredPrefix(h, link, s.rpcs[link].request, s.nodes[link.follower]);
  }

  lemma StoredPrefix(h: State, link: Link, r: AppendRequest<Value>, n: Node<Value>)
    requires Inv(h) && RpcOk(h, link, Sent(r)) && NodeOk(h, link.follower, n) && n.term <= link.term
    requires LogMatches(n.log, r)
    ensures var k := Max(r.prevIndex + |r.entries|, n.commit);
            k <= |h.lead[link.term].log| && Stored(n.log, n.commit, r) == h.lead[link.term].log[..k]
  {
    var h1 := JoinedFollower(h, link, Sent(r), n);
    AcceptReady(h1, link, r, JoinTerm(n.(role := Follower), link.term));
  }

  /** The request carries an entry for index j of the same term as the log's. */
  predicate Carries<V>(r: AppendRequest<V>, log: seq<Entry<V>>, j: nat) {
    1 <= j <= |log| && r.prevIndex < j <= r.prevIndex + |r.entries| &&
    r.entries[j - 1 - r.prevIndex].term == log[j - 1].term
  }

  /** Exactly when an accepted request leaves the follower's first j entries in place, committed or
      not: if they lie below the previous or the follower's commit index, or the request carries an
      entry of the same term for the last of them. */
  lemma AcceptKeeps(size: nat, worlds: seq<Net>, actions: seq<Action<Value>>, i: nat, link: Link, j: nat)
    requires IsRun(size, worlds, actions) && i + 1 < |worlds| && Accepts(worlds[i], worlds[i + 1], link)
    requires 1 <= j <= |worlds[i].nodes[link.follower].log|
    ensures var n, n', r := worlds[i].nodes[link.follower], worlds[i + 1].nodes[link.follower],
                            worlds[i].rpcs[link].request;
            n.log[..j] <= n'.log <==> j <= Max(r.prevIndex, n.commit) || Carries(r, n.log, j)
  {
    Moves.AcceptedNode(worlds[i], worlds[i + 1], link);
    KeepsAt(size, worlds, actions, i, link.follower, worlds[i].rpcs[link].request, j);
  }

  lemma KeepsAt(size: nat, worlds: seq<Net>, actions: seq<Action<Value>>, i: nat, f: nat, r: AppendRequest<Value>,
                j: nat)
    requires IsRun(size, worlds, actions) && i + 1 < |worlds| && f < |worlds[i].nodes| && f < |worlds[i + 1].nodes|
    requires r.prevIndex <= |worlds[i].nodes[f].log| && 1 <= j <= |worlds[i].nodes[f].log|
    requires worlds[i + 1].nodes[f].log == Stored(worlds[i].nodes[f].log, worlds[i].nodes[f].commit, r)
    ensures var n, n' := worlds[i].nodes[f], worlds[i + 1].nodes[f];
            n.log[..j] <= n'.log <==> j <= Max(r.prevIndex, n.commit) || Carries(r, n.log, j)
  {
    CommitSaved(size, worlds, actions, i, f);
    var n := worlds[i].nodes[f];
    if j > Max(r.prevIndex, n.commit) && Carries(r, n.log, j) {
      StoredMatches(n.log, n.commit, r, j);
      OwnLogsMatch(size, worlds, actions, i, f, j);
    }
    StoredKeepsIff(n.log, n.commit, r, j);
  }

  lemma StoredMatches(log: Log, commit: nat, r: AppendRequest<Value>, j: nat)
    requires commit <= |log| && r.prevIndex <= |log| && j > Max(r.prevIndex, commit) && Carries(r, log, j)
    ensures Matches(log, Stored(log, commit, r), j)
  {
    StoredKeeps(log, commit, r, j);
  }

  lemma StoredKeepsIff<V>(log: seq<Entry<V>>, commit: nat, r: AppendRequest<V>, j: nat)
    requires commit <= |log| && r.prevIndex <= |log| && 1 <= j <= |log|
    requires j > Max(r.prevIndex, commit) && Carries(r, log, j) ==> log[..j] <= Stored(log, commit, r)
    ensures log[..j] <= Stored(log, commit, r) <==> j <= Max(r.prevIndex, commit) || Carries(r, log, j)
  {
    StoredKeeps(log, commit, r, j);
  }

  lemma CommitSaved(size: nat, worlds: seq<Net>, actions: seq<Action<Value>>, i: nat, a: nat)
    requires IsRun(size, worlds, actions) && i < |worlds| && a < |worlds[i].nodes|
    ensures worlds[i].nodes[a].commit <= |worlds[i].nodes[a].log|
  {
    var hs := RunHistory(size, worlds, actions);
    HistoryNode(worlds, hs, i, a);
  }

  lemma StoredKeeps<V>(log: seq<Entry<V>>, commit: nat, r: AppendRequest<V>, j: nat)
    requires commit <= |log| && r.prevIndex <= |log| && 1 <= j <= |log|
    ensures var log', keep := Stored(log, commit, r), Max(r.prevIndex, commit);
            && (j <= keep ==> log[..j] <= log')
            && (j > keep && log[..j] <= log' ==> Carries(r, log, j))
            && (j > keep && Carries(r, log, j) ==> j <= |log'| && log'[j - 1] == r.entries[j - 1 - r.prevIndex])
  {
    var log', keep := Stored(log, commit, r), Max(r.prevIndex, commit);
    if j > keep && log[..j] <= log' { assert log'[j - 1] == log[..j][j - 1]; }
  }

  /** One node's saved logs before and after a step, where they hold entries of equal term. */
  lemma OwnLogsMatch(size: nat, worlds: seq<Net>, actions: seq<Action<Value>>, i: nat, f: nat, j: nat)
    requires IsRun(size, worlds, actions) && i + 1 < |worlds| && f < |worlds[i].nodes| && f < |worlds[i + 1].nodes|
    requires Matches(worlds[i].nodes[f].log, worlds[i + 1].nodes[f].log, j)
    ensures worlds[i].nodes[f].log[..j] <= worlds[i + 1].nodes[f].log
  {
    var x, y := worlds[i].nodes[f], worlds[i + 1].nodes[f];
    LogMatching(size, worlds, actions, i, i + 1, f, f, j);
    assert FullLog(x)[..j] == x.log[..j] && FullLog(y)[..j] == y.log[..j];
  }

  /** For entries that are committed by the term of the request it is enough that the request reaches
      that far. */
  lemma AcceptKeepsCommitted(size: nat, worlds: seq<Net>, actions: seq<Action<Value>>, i: nat, link: Link, j: nat)
    requires IsRun(size, worlds, actions) && i + 1 < |worlds| && Accepts(worlds[i], worlds[i + 1], link)
    requires 1 <= j <= |worlds[i].nodes[link.follower].log|
    requires CommittedBy(worlds, link.term, worlds[i].nodes[link.follower].log, j)
    ensures var n, n', r := worlds[i].nodes[link.follower], worlds[i + 1].nodes[link.follower],
                            worlds[i].rpcs[link].request;
            n.log[..j] <= n'.log <==> j <= Max(r.prevIndex + |r.entries|, n.commit)
  {
    var hs := RunHistory(size, worlds, actions);
    AcceptedInRun(worlds, hs, i, link);
    Moves.AcceptedNode(worlds[i], worlds[i + 1], link);
    KeptIfReached(worlds, hs, i, link.follower, link.term, worlds[i + 1].nodes[link.follower].log, j);
  }

  lemma AcceptedInRun(worlds: seq<Net>, hs: seq<State>, i: nat, link: Link)
    requires IsHistory(worlds, hs) && i + 1 < |worlds| && Accepts(worlds[i], worlds[i + 1], link)
    ensures var n, r := worlds[i].nodes[link.follower], worlds[i].rpcs[link].request;
            var k := Max(r.prevIndex + |r.entries|, n.commit);
            link.term in hs[i].lead && k <= |hs[i].lead[link.term].log| && link.follower < |worlds[i + 1].nodes| &&
            worlds[i + 1].nodes[link.follower].log == hs[i].lead[link.term].log[..k]
  {
    HistoryNode(worlds, hs, i, link.follower);
    assert RpcOk(hs[i], link, worlds[i].rpcs[link]);
    AcceptedPrefix(worlds[i], worlds[i + 1], hs[i], link);
  }

  lemma KeptIfReached(worlds: seq<Net>, hs: seq<State>, i: nat, f: nat, t: nat, log: Log, j: nat)
    requires IsHistory(worlds, hs) && i < |worlds| && f < |worlds[i].nodes| && 1 <= j <= |worlds[i].nodes[f].log|
    requires t in hs[i].lead && |log| <= |hs[i].lead[t].log| && log == hs[i].lead[t].log[..|log|]
    requires CommittedBy(worlds, t, worlds[i].nodes[f].log, j)
    ensures worlds[i].nodes[f].log[..j] <= log <==> j <= |log|
  {
    CommittedInLead(worlds, hs, i, t, worlds[i].nodes[f].log, j);
    if j <= |log| { assert log[..j] == worlds[i].nodes[f].log[..j]; }
  }
}
