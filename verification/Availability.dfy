/** A majority is all it takes: from every state of every run, nodes that are a majority and hear from
    each other can elect a leader and commit a new entry, as the program does it.
 */
module Availability {
  import opened Entries
  import opened Replica
  import opened Cluster
  import opened Mapping
  import opened Consensus
  import opened Coupling
  import opened Metamorphosis
  import opened MainNodes
  import opened Elections
  import opened Progress
  import opened WholeSends
  import QueueSafety
  import Raft
  import Safety

  // ---------------------------------------------------------------- every state is healthy

  lemma BallotStep(s: Net, a: Action<Value>, i: nat)
    requires Enabled(s, a) && i < |s.nodes| && HasBallot(s, i)
    ensures |Next(s, a).nodes| == |s.nodes| && HasBallot(Next(s, a), i)
  {
    var s' := Next(s, a);
    assert s.ballots <= s'.ballots;
    if a == Timeout(i) { assert Ballot(s'.nodes[i], i) in s'.ballots; }
  }

  lemma {:induction false} BallotsOut(size: nat, worlds: seq<Net>, actions: seq<Action<Value>>, k: nat, i: nat)
    requires IsRun(size, worlds, actions) && k < |worlds| && i < size
    ensures |worlds[k].nodes| == size && HasBallot(worlds[k], i)
  {
    if k > 0 {
      BallotsOut(size, worlds, actions, k - 1, i);
      assert Enabled(worlds[k - 1], actions[k - 1]) && worlds[k] == Next(worlds[k - 1], actions[k - 1]);
      BallotStep(worlds[k - 1], actions[k - 1], i);
    }
  }

  lemma RunHealthy(size: nat, worlds: seq<Net>, actions: seq<Action<Value>>, k: nat)
    requires IsRun(size, worlds, actions) && k < |worlds| && size > 0
    ensures |worlds[k].nodes| == size && Healthy(worlds[k])
  {
    var hs := Safety.RunHistory(size, worlds, actions);
    var s, h := worlds[k], hs[k];
    BallotsOut(size, worlds, actions, k, 0);
    forall i | 0 <= i < size ensures s.nodes[i].commit <= |s.nodes[i].log| && HasBallot(s, i) {
      Safety.HistoryNode(worlds, hs, k, i);
      BallotsOut(size, worlds, actions, k, i);
    }
    forall i, j | 0 <= i < j < size && s.nodes[i].role == s.nodes[j].role == Leader
      ensures s.nodes[i].term != s.nodes[j].term
    {
      if s.nodes[i].term == s.nodes[j].term { Safety.ElectionSafety(size, worlds, actions, k, k, i, j); }
    }
    forall link | link in s.rpcs && link.leader < size ensures link.term <= s.nodes[link.leader].term {
      Safety.HistoryNode(worlds, hs, k, link.leader);
      assert RpcOk(h, link, s.rpcs[link]) && ReignOk(h, link.term);
    }
  }

  lemma HealthyMapped<A, B>(g: A -> B, s: World<A>)
    requires Healthy(MapWorld(g, s))
    ensures Healthy(s)
  {
    var t := MapWorld(g, s);
    forall i | 0 <= i < |s.nodes| ensures s.nodes[i].commit <= |s.nodes[i].log| && HasBallot(s, i) {
      assert t.nodes[i] == MapNode(g, s.nodes[i]) && HasBallot(t, i);
    }
    forall i, j | 0 <= i < j < |s.nodes| && s.nodes[i].role == s.nodes[j].role == Leader
      ensures s.nodes[i].term != s.nodes[j].term
    {
      assert t.nodes[i].role == t.nodes[j].role == Leader;
    }
  }

  // ---------------------------------------------------------------- Raft

  function Worlds<V>(ats: seq<At<V>>): (r: seq<World<V>>)
    ensures |r| == |ats| && forall i :: 0 <= i < |ats| ==> r[i] == ats[i].world
  {
    seq(|ats|, i requires 0 <= i < |ats| => ats[i].world)
  }

  /** The run goes on along the path. */
  function Extended<V>(worlds: seq<World<V>>, ats: seq<At<V>>): seq<World<V>>
    requires |worlds| > 0
  {
    worlds[..|worlds| - 1] + Worlds(ats)
  }

  lemma RaftStep<V>(p: Plan<V>, x: At<V>, a: Action<V>, y: At<V>)
    requires p.strip == Same && !p.spare && Step(p, x, a, y)
    ensures Enabled(x.world, a) && y.world == Next(x.world, a) && Among(p.q, x.world, a) && SendsWhole(x.world, a)
  {
    if a.Send? { ShippedWhole(x.world, a.node, a.follower, a.last); }
  }

  lemma ExtendedRun<V(!new)>(p: Plan<V>, size: nat, worlds: seq<World<V>>, actions: seq<Action<V>>,
                             ats: seq<At<V>>, more: seq<Action<V>>)
    requires IsRun(size, worlds, actions) && p.strip == Same && !p.spare
    requires IsPath(p, ats, more) && ats[0].world == worlds[|actions|]
    ensures IsRun(size, Extended(worlds, ats), actions + more)
    ensures forall i :: |actions| <= i < |actions + more| ==>
              Among(p.q, Extended(worlds, ats)[i], (actions + more)[i]) &&
              SendsWhole(Extended(worlds, ats)[i], (actions + more)[i])
  {
    var ws, acts := Extended(worlds, ats), actions + more;
    forall i | 0 <= i < |acts|
      ensures Enabled(ws[i], acts[i]) && ws[i + 1] == Next(ws[i], acts[i])
      ensures i >= |actions| ==> Among(p.q, ws[i], acts[i]) && SendsWhole(ws[i], acts[i])
    {
      if i < |actions| {
        assert Enabled(worlds[i], actions[i]) && worlds[i + 1] == Next(worlds[i], actions[i]);
      } else {
        var j := i - |actions|;
        assert Step(p, ats[j], more[j], ats[j + 1]);
        RaftStep(p, ats[j], more[j], ats[j + 1]);
      }
    }
  }

  lemma Prolonged<V>(worlds: seq<World<V>>, ats: seq<At<V>>)
    requires |worlds| > 0 && |ats| > 0 && ats[0].world == worlds[|worlds| - 1]
    ensures worlds <= Extended(worlds, ats) && |Extended(worlds, ats)| == |worlds| + |ats| - 1
    ensures Extended(worlds, ats)[|worlds| + |ats| - 2] == ats[|ats| - 1].world
  {}

  /** A path to the committed entry, led by the most complete node. */
  lemma Path<V(!new)>(strip: V -> V, spare: bool, s: World<V>, q: set<nat>, value: V, alive: nat -> seq<bool>)
      returns (p: Plan<V>, ats: seq<At<V>>, more: seq<Action<V>>, id: nat)
    requires Healthy(s) && |s.nodes| >= 2 && IsQuorum(|s.nodes|, q) && forall c: nat :: |alive(c)| == |s.nodes|
    ensures p == Plan(strip, q, p.lead, value, spare) && p.lead < |s.nodes|
    ensures IsPath(p, ats, more) && ats[0] == At(s, alive(p.lead))
    ensures var s' := ats[|more|].world;
            && id == |s.calls| < |s'.calls| && s'.calls[id].value == value && s'.calls[id].phase.Committed?
            && Informed(s', q, s'.calls[id].index)
  {
    var c := MostComplete(s, q);
    p := Plan(strip, q, c, value, spare);
    var x := At(s, alive(c));
    var z, k := Commits(p, x);
    id := k;
    ats, more :| PathTo(p, ats, more, x, z);
  }

  /** From every state of every run of the Raft cluster, for every majority, there are steps of the
      nodes of that majority alone, none of which crashes and with whole suffixes sent, after which a
      new client call is committed and each of these nodes has committed its entry. */
  lemma RaftAvailable(size: nat, worlds: seq<World<Request>>, actions: seq<Action<Request>>, q: set<nat>, r: Request)
      returns (worlds': seq<World<Request>>, actions': seq<Action<Request>>, id: nat)
    requires IsRun(size, worlds, actions) && size >= 2 && IsQuorum(size, q)
    ensures IsRun(size, worlds', actions') && actions <= actions' && worlds <= worlds'
    ensures forall i :: |actions| <= i < |actions'| ==>
              Among(q, worlds'[i], actions'[i]) && SendsWhole(worlds'[i], actions'[i])
    ensures var s, s' := worlds[|actions|], worlds'[|actions'|];
            && |s.calls| == id < |s'.calls| && s'.calls[id].value == r && s'.calls[id].phase.Committed?
            && Informed(s', q, s'.calls[id].index)
  {
    RaftHealthy(size, worlds, actions);
    var p, ats, more, k := Path(Same, false, worlds[|actions|], q, r, c => Everyone(size));
    ExtendedRun(p, size, worlds, actions, ats, more);
    Prolonged(worlds, ats);
    worlds', actions', id := Extended(worlds, ats), actions + more, k;
  }

  lemma RaftHealthy(size: nat, worlds: seq<World<Request>>, actions: seq<Action<Request>>)
    requires IsRun(size, worlds, actions) && size > 0
    ensures |worlds[|actions|].nodes| == size && Healthy(worlds[|actions|])
  {
    Raft.RaftRun(size, worlds, actions);
    RunHealthy(size, Raft.Commands(worlds), Raft.CommandActions(actions), |actions|);
    HealthyMapped(Raft.AsCommand, worlds[|actions|]);
  }

  // ---------------------------------------------------------------- the queue

  lemma QueueHealthy(md5: string -> Hash, size: nat, worlds: seq<Shelf>, actions: seq<Action<Msg>>, k: nat)
    requires IsQueueRun(md5, size, worlds, actions) && k < |worlds| && size > 0
    ensures |worlds[k].nodes| == size && Healthy(worlds[k])
  {
    var tagged, acts := TagRun(md5, size, worlds, actions);
    QueueSafety.CoreRun(md5, size, tagged, acts);
    RunHealthy(size, QueueSafety.Cores(tagged), QueueSafety.CoreActions(acts), k);
    HealthyMapped(Identity, tagged[k]);
    HealthyErased(tagged[k]);
    assert MapWorld(Erase, tagged[k]) == worlds[k];
  }

  lemma HealthyErased(s: World<Tagged>)
    requires Healthy(s)
    ensures Healthy(MapWorld(Erase, s)) && |MapWorld(Erase, s).nodes| == |s.nodes|
  {
    var t := MapWorld(Erase, s);
    forall i | 0 <= i < |t.nodes| ensures t.nodes[i].commit <= |t.nodes[i].log| && HasBallot(t, i) {
      assert t.nodes[i] == MapNode(Erase, s.nodes[i]) && HasBallot(s, i);
    }
  }

  lemma QueueStepOf(md5: string -> Hash, p: Plan<Msg>, x: At<Msg>, a: Action<Msg>, y: At<Msg>)
    requires p.strip == StripMsg && Step(p, x, a, y) && p.value.data != "" && p.value.hash == md5(p.value.data)
    ensures QueueStep(md5, x.world, a, y.world) && Among(p.q, x.world, a)
  {}

  lemma ExtendedQueueRun(md5: string -> Hash, p: Plan<Msg>, size: nat, worlds: seq<Shelf>, actions: seq<Action<Msg>>,
                         ats: seq<At<Msg>>, more: seq<Action<Msg>>)
    requires IsQueueRun(md5, size, worlds, actions) && p.strip == StripMsg
    requires p.value.data != "" && p.value.hash == md5(p.value.data)
    requires IsPath(p, ats, more) && ats[0].world == worlds[|actions|]
    ensures IsQueueRun(md5, size, Extended(worlds, ats), actions + more)
    ensures forall i :: |actions| <= i < |actions + more| ==> Among(p.q, Extended(worlds, ats)[i], (actions + more)[i])
  {
    var ws, acts := Extended(worlds, ats), actions + more;
    forall i | 0 <= i < |acts|
      ensures QueueStep(md5, ws[i], acts[i], ws[i + 1]) && (i >= |actions| ==> Among(p.q, ws[i], acts[i]))
    {
      if i < |actions| {
        assert QueueStep(md5, worlds[i], actions[i], worlds[i + 1]);
      } else {
        var j := i - |actions|;
        assert Step(p, ats[j], more[j], ats[j + 1]);
        QueueStepOf(md5, p, ats[j], more[j], ats[j + 1]);
      }
    }
  }

  ghost predicate Sized<V>(size: nat, worlds: seq<World<V>>) {
    forall k :: 0 <= k < |worlds| ==> |worlds[k].nodes| == size
  }

  /** What the sessions think depends on the run so far only. */
  lemma {:induction false} AliveBefore(size: nat, worlds: seq<Shelf>, actions: seq<Action<Msg>>,
                                       worlds': seq<Shelf>, actions': seq<Action<Msg>>, l: nat, i: nat)
    requires l < size && Sized(size, worlds) && Sized(size, worlds') && i < |worlds| == |actions| + 1
    requires worlds <= worlds' && actions <= actions' && |worlds'| == |actions'| + 1
    ensures AliveAt(size, worlds', actions', l, i) == AliveAt(size, worlds, actions, l, i)
  {
    if i > 0 {
      AliveBefore(size, worlds, actions, worlds', actions', l, i - 1);
      assert worlds'[i - 1] == worlds[i - 1] && worlds'[i] == worlds[i] && actions'[i - 1] == actions[i - 1];
    }
  }

  /** From the given step on the run is along the path. */
  ghost predicate Along<V>(worlds: seq<World<V>>, actions: seq<Action<V>>, base: nat,
                           ats: seq<At<V>>, more: seq<Action<V>>)
  {
    && |worlds| == |actions| + 1 && |ats| == |more| + 1 && base + |more| == |actions|
    && (forall j :: 0 <= j < |ats| ==> worlds[base + j] == ats[j].world)
    && (forall j :: 0 <= j < |more| ==> actions[base + j] == more[j])
  }

  lemma {:induction false} AliveOn(p: Plan<Msg>, size: nat, worlds: seq<Shelf>, actions: seq<Action<Msg>>, base: nat,
                                   ats: seq<At<Msg>>, more: seq<Action<Msg>>, j: nat)
    requires Sized(size, worlds) && p.lead < size && Along(worlds, actions, base, ats, more) && IsPath(p, ats, more)
    requires ats[0].alive == AliveAt(size, worlds, actions, p.lead, base) && j < |ats|
    ensures AliveAt(size, worlds, actions, p.lead, base + j) == ats[j].alive
  {
    if j > 0 {
      var k := j - 1;
      AliveOn(p, size, worlds, actions, base, ats, more, k);
      assert Step(p, ats[k], more[k], ats[k + 1]);
    }
  }

  lemma SendsOn(p: Plan<Msg>, size: nat, worlds: seq<Shelf>, actions: seq<Action<Msg>>, base: nat,
                ats: seq<At<Msg>>, more: seq<Action<Msg>>, j: nat)
    requires Sized(size, worlds) && p.lead < size && Along(worlds, actions, base, ats, more) && IsPath(p, ats, more)
    requires ats[0].alive == AliveAt(size, worlds, actions, p.lead, base) && j < |more| && p.spare
    ensures SendsAsProgram(size, worlds, actions, p.lead, base + j)
  {
    AliveOn(p, size, worlds, actions, base, ats, more, j);
    assert Step(p, ats[j], more[j], ats[j + 1]);
  }

  lemma AllSends(p: Plan<Msg>, size: nat, worlds: seq<Shelf>, actions: seq<Action<Msg>>, base: nat,
                 ats: seq<At<Msg>>, more: seq<Action<Msg>>)
    requires Sized(size, worlds) && p.lead < size && Along(worlds, actions, base, ats, more) && IsPath(p, ats, more)
    requires ats[0].alive == AliveAt(size, worlds, actions, p.lead, base) && p.spare
    ensures forall i :: base <= i < |actions| ==> SendsAsProgram(size, worlds, actions, p.lead, i)
  {
    forall i | base <= i < |actions| ensures SendsAsProgram(size, worlds, actions, p.lead, i) {
      SendsOn(p, size, worlds, actions, base, ats, more, i - base);
    }
  }

  lemma ExtendedAlong<V>(worlds: seq<World<V>>, actions: seq<Action<V>>, ats: seq<At<V>>, more: seq<Action<V>>)
    requires |worlds| == |actions| + 1 && |ats| == |more| + 1
    ensures Along(Extended(worlds, ats), actions + more, |actions|, ats, more)
  {}

  lemma ProgramSends(p: Plan<Msg>, size: nat, worlds: seq<Shelf>, actions: seq<Action<Msg>>,
                     ats: seq<At<Msg>>, more: seq<Action<Msg>>, ws: seq<Shelf>, acts: seq<Action<Msg>>)
    requires Sized(size, worlds) && |worlds| == |actions| + 1 && p.lead < size && p.spare && IsPath(p, ats, more)
    requires ats[0].alive == AliveAt(size, worlds, actions, p.lead, |actions|)
    requires Sized(size, ws) && worlds <= ws && actions <= acts && Along(ws, acts, |actions|, ats, more)
    ensures forall i :: |actions| <= i < |acts| ==> SendsAsProgram(size, ws, acts, p.lead, i)
  {
    AliveBefore(size, worlds, actions, ws, acts, p.lead, |actions|);
    AllSends(p, size, ws, acts, |actions|, ats, more);
  }

  lemma QueuePath(md5: string -> Hash, size: nat, worlds: seq<Shelf>, actions: seq<Action<Msg>>, q: set<nat>, m: Msg)
      returns (p: Plan<Msg>, ats: seq<At<Msg>>, more: seq<Action<Msg>>, id: nat)
    requires IsQueueRun(md5, size, worlds, actions) && size >= 2 && IsQuorum(size, q) && Sized(size, worlds)
    ensures p == Plan(StripMsg, q, p.lead, m, true) && p.lead < size && IsPath(p, ats, more)
    ensures ats[0] == At(worlds[|actions|], AliveAt(size, worlds, actions, p.lead, |actions|))
    ensures var s, s' := worlds[|actions|], ats[|more|].world;
            && |s.calls| == id < |s'.calls| && s'.calls[id].value == m && s'.calls[id].phase.Committed?
            && Informed(s', q, s'.calls[id].index)
  {
    QueueHealthy(md5, size, worlds, actions, |actions|);
    var alive := (c: nat) => if c < size then AliveAt(size, worlds, actions, c, |actions|) else Everyone(size);
    p, ats, more, id := Path(StripMsg, true, worlds[|actions|], q, m, alive);
  }

  /** The same for the queue, in which the new leader sends what the main-node rule makes it send:
      if it does not reach one of its main nodes it gives up sparing the other followers. */
  lemma QueueAvailable(md5: string -> Hash, size: nat, worlds: seq<Shelf>, actions: seq<Action<Msg>>, q: set<nat>,
                       m: Msg)
      returns (worlds': seq<Shelf>, actions': seq<Action<Msg>>, l: nat, id: nat)
    requires IsQueueRun(md5, size, worlds, actions) && size >= 2 && IsQuorum(size, q)
    requires m.data != "" && m.hash == md5(m.data)
    ensures IsQueueRun(md5, size, worlds', actions') && actions <= actions' && worlds <= worlds' && Sized(size, worlds')
    ensures forall i :: |actions| <= i < |actions'| ==> Among(q, worlds'[i], actions'[i])
    ensures l < size && forall i :: |actions| <= i < |actions'| ==> SendsAsProgram(size, worlds', actions', l, i)
    ensures var s, s' := worlds[|actions|], worlds'[|actions'|];
            && |s.calls| == id < |s'.calls| && s'.calls[id].value == m && s'.calls[id].phase.Committed?
            && Informed(s', q, s'.calls[id].index)
  {
    QueueSized(md5, size, worlds, actions);
    var p, ats, more, k := QueuePath(md5, size, worlds, actions, q, m);
    ExtendedQueueRun(md5, p, size, worlds, actions, ats, more);
    Prolonged(worlds, ats);
    worlds', actions', l, id := Extended(worlds, ats), actions + more, p.lead, k;
    QueueSized(md5, size, worlds', actions');
    ExtendedAlong(worlds, actions, ats, more);
    ProgramSends(p, size, worlds, actions, ats, more, worlds', actions');
  }

  lemma QueueSized(md5: string -> Hash, size: nat, worlds: seq<Shelf>, actions: seq<Action<Msg>>)
    requires IsQueueRun(md5, size, worlds, actions) && size > 0
    ensures Sized(size, worlds)
  {
    forall k | 0 <= k < |worlds| ensures |worlds[k].nodes| == size { QueueHealthy(md5, size, worlds, actions, k); }
  }

  // ---------------------------------------------------------------- one node

  /** Two nodes are needed: a cluster of one counts votes only in answers of other nodes, and never has
      a leader. */
  lemma {:induction false} LoneNode<V(!new)>(worlds: seq<World<V>>, actions: seq<Action<V>>, k: nat)
    requires IsRun(1, worlds, actions) && k < |worlds|
    ensures |worlds[k].nodes| == 1 && worlds[k].nodes[0].role != Leader && worlds[k].answers == {}
    ensures worlds[k].calls == [] && forall b :: b in worlds[k].ballots ==> b.candidate == 0
  {
    if k > 0 {
      LoneNode(worlds, actions, k - 1);
      assert Enabled(worlds[k - 1], actions[k - 1]) && worlds[k] == Next(worlds[k - 1], actions[k - 1]);
      LoneStep(worlds[k - 1], actions[k - 1]);
    }
  }

  lemma LoneStep<V>(s: World<V>, a: Action<V>)
    requires Enabled(s, a) && |s.nodes| == 1 && s.nodes[0].role != Leader && s.answers == {} && s.calls == []
    requires forall b :: b in s.ballots ==> b.candidate == 0
    ensures var s' := Next(s, a);
            && |s'.nodes| == 1 && s'.nodes[0].role != Leader && s'.answers == {} && s'.calls == []
            && forall b :: b in s'.ballots ==> b.candidate == 0
  {}
}
