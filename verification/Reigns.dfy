/** What a leader knows of the others' logs only grows while it leads. */
module Reigns {
  import opened Entries
  import opened Replica
  import opened Cluster
  import opened Consensus
  import opened Coupling
  import opened Safety

  ghost predicate Reigning<V>(s: World<V>, l: nat, t: nat) {
    Leads(s, l) && s.nodes[l].term == t
  }

  ghost predicate Below(a: seq<nat>, b: seq<nat>) {
    |a| == |b| && forall f :: 0 <= f < |a| ==> a[f] <= b[f]
  }

  lemma OtherStep<V>(s: World<V>, a: Action<V>, l: nat, t: nat)
    requires Enabled(s, a) && !a.Return? && Reigning(s, l, t) && s.nodes[l].matchIndex[l] <= |s.nodes[l].log|
    requires Reigning(Next(s, a), l, t)
    ensures Below(s.nodes[l].matchIndex, Next(s, a).nodes[l].matchIndex)
  {}

  lemma ReturnStep<V>(s: World<V>, link: Link, l: nat, t: nat)
    requires CanReturn(s, link) && Reigning(s, l, t) && Reigning(Returned(s, link), l, t)
    requires link.leader == l ==>
               s.nodes[l].matchIndex[link.follower] <= s.rpcs[link].request.prevIndex
    ensures Below(s.nodes[l].matchIndex, Returned(s, link).nodes[l].matchIndex)
  {}

  /** No step takes a match index back. */
  lemma MatchStep(s: Net, h: State, a: Action<Value>, l: nat, t: nat)
    requires NodesOk(s, h) && RpcsOk(s, h) && Enabled(s, a)
    requires Reigning(s, l, t) && Reigning(Next(s, a), l, t)
    ensures Below(s.nodes[l].matchIndex, Next(s, a).nodes[l].matchIndex)
  {
    assert NodeOk(h, l, s.nodes[l]);
    if a.Return? {
      var link := a.link;
      if link.leader == l {
        assert RpcOk(h, link, s.rpcs[link]) && SessionCall(s, link, s.rpcs[link].request.prevIndex);
        assert SessionOk(h, t, link.follower, s.nodes[l].nextIndex[link.follower],
                         s.nodes[l].matchIndex[link.follower]);
      }
      ReturnStep(s, link, l, t);
    } else {
      OtherStep(s, a, l, t);
    }
  }

  /** A node that has led a term is not elected in it again. */
  lemma NotElectedTwice(s: Net, h: State, a: Action<Value>, l: nat, t: nat)
    requires NodesOk(s, h) && Enabled(s, a) && l < |s.nodes|
    requires t in h.lead && h.lead[t].owner == l && s.nodes[l].term == t && Reigning(Next(s, a), l, t)
    ensures Reigning(s, l, t)
  {
    assert NodeOk(h, l, s.nodes[l]);
  }

  lemma TermGrows(worlds: seq<Net>, hs: seq<State>, i: nat, k: nat, l: nat)
    requires IsHistory(worlds, hs) && i <= k < |worlds| && l < |worlds[i].nodes|
    ensures |worlds[k].nodes| == |worlds[i].nodes| && worlds[i].nodes[l].term <= worlds[k].nodes[l].term
  {
    assert Inv(hs[i]) && Inv(hs[k]) && Evolves(hs[i], hs[k]);
    HistoryNode(worlds, hs, i, l);
    HistoryNode(worlds, hs, k, l);
    assert PeerEvolves(hs[i].peers[l], hs[k].peers[l]);
  }

  /** Between two moments of the same reign the match indexes only grow. */
  lemma {:induction false} MatchGrows(size: nat, worlds: seq<Net>, actions: seq<Action<Value>>, hs: seq<State>,
                                      i: nat, j: nat, l: nat, t: nat)
    requires IsRun(size, worlds, actions) && IsHistory(worlds, hs) && i <= j < |worlds|
    requires Reigning(worlds[i], l, t) && Reigning(worlds[j], l, t)
    ensures Below(worlds[i].nodes[l].matchIndex, worlds[j].nodes[l].matchIndex)
    decreases j - i
  {
    if i < j {
      var k := j - 1;
      TermGrows(worlds, hs, i, k, l);
      TermGrows(worlds, hs, k, j, l);
      LeaderLogStays(worlds, hs, i, k, l);
      assert Inv(hs[k]) && Enabled(worlds[k], actions[k]) && worlds[k + 1] == Next(worlds[k], actions[k]);
      NotElectedTwice(worlds[k], hs[k], actions[k], l, t);
      MatchStep(worlds[k], hs[k], actions[k], l, t);
      MatchGrows(size, worlds, actions, hs, i, k, l, t);
    }
  }

  /** match_index never decreases while a node leads a term. */
  lemma MatchIndexGrows(size: nat, worlds: seq<Net>, actions: seq<Action<Value>>, i: nat, j: nat, l: nat, f: nat)
    requires IsRun(size, worlds, actions) && i <= j < |worlds| && f < |worlds[i].nodes|
    requires l < |worlds[i].nodes| && worlds[i].nodes[l].role == Leader
    requires l < |worlds[j].nodes| && worlds[j].nodes[l].role == Leader
    requires worlds[j].nodes[l].term == worlds[i].nodes[l].term
    ensures var a, b := worlds[i].nodes[l].matchIndex, worlds[j].nodes[l].matchIndex;
            |a| == |b| == |worlds[i].nodes| && a[f] <= b[f]
  {
    var hs := RunHistory(size, worlds, actions);
    HistoryNode(worlds, hs, i, l);
    HistoryNode(worlds, hs, j, l);
    MatchGrows(size, worlds, actions, hs, i, j, l, worlds[i].nodes[l].term);
  }

  /** A leader's own match index is unset until its first write, and then the size of its saved log. */
  ghost predicate OwnMatch<V>(n: Node<V>, l: nat) {
    n.role == Leader && l < |n.matchIndex| ==> n.matchIndex[l] == 0 || n.matchIndex[l] == |n.log|
  }

  lemma OwnMatchStep<V>(s: World<V>, a: Action<V>, l: nat)
    requires Enabled(s, a) && l < |s.nodes| && OwnMatch(s.nodes[l], l)
    requires a.Return? ==> a.link.leader != a.link.follower
    ensures l < |Next(s, a).nodes| && OwnMatch(Next(s, a).nodes[l], l)
  {}

  lemma {:induction false} OwnMatchHolds(size: nat, worlds: seq<Net>, actions: seq<Action<Value>>, i: nat, l: nat)
    requires IsRun(size, worlds, actions) && i < |worlds| && l < size
    ensures l < |worlds[i].nodes| && OwnMatch(worlds[i].nodes[l], l)
    decreases i
  {
    if i > 0 {
      var k := i - 1;
      OwnMatchHolds(size, worlds, actions, k, l);
      var hs := RunHistory(size, worlds, actions);
      assert Inv(hs[k]) && Enabled(worlds[k], actions[k]) && worlds[k + 1] == Next(worlds[k], actions[k]);
      if actions[k].Return? {
        assert RpcOk(hs[k], actions[k].link, worlds[k].rpcs[actions[k].link]);
      }
      OwnMatchStep(worlds[k], actions[k], l);
    }
  }

  // ---------------------------------------------------------------- rejections

  /** Step k hands the leader of the link a rejection of its call. */
  ghost predicate Rejected<V>(worlds: seq<World<V>>, actions: seq<Action<V>>, k: nat, link: Link) {
    k < |actions| && k < |worlds| && actions[k] == Return(link) && link in worlds[k].rpcs &&
    worlds[k].rpcs[link].Answered? &&
    !worlds[k].rpcs[link].reply.success && worlds[k].rpcs[link].reply.term <= link.term
  }

  /** How many rejections the session has had before step i. */
  ghost function Rejections<V>(worlds: seq<World<V>>, actions: seq<Action<V>>, i: nat, link: Link): nat {
    if i == 0 then 0
    else Rejections(worlds, actions, i - 1, link) + (if Rejected(worlds, actions, i - 1, link) then 1 else 0)
  }

  /** Rejections come to the leader of a term only. */
  lemma {:induction false} NoneBefore(size: nat, worlds: seq<Net>, actions: seq<Action<Value>>, hs: seq<State>,
                                      i: nat, link: Link)
    requires IsRun(size, worlds, actions) && IsHistory(worlds, hs) && i < |worlds| && link.term !in hs[i].lead
    ensures Rejections(worlds, actions, i, link) == 0
    decreases i
  {
    if i > 0 {
      var k := i - 1;
      assert Evolves(hs[k], hs[i]);
      NoneBefore(size, worlds, actions, hs, k, link);
      if Rejected(worlds, actions, k, link) {
        assert Enabled(worlds[k], actions[k]);
        HistoryNode(worlds, hs, k, link.leader);
      }
    }
  }

  /** While a follower has not accepted in the term, every rejection has moved its next index down
      from the size of the log that the leader was elected with. */
  ghost predicate Probes(s: Net, h: State, link: Link, rejections: nat)
    requires Reigning(s, link.leader, link.term) && link.follower < |s.nodes| == |h.peers|
  {
    var n := s.nodes[link.leader];
    && rejections + 1 <= n.start
    && (link.term !in h.peers[link.follower].acc ==> rejections + n.nextIndex[link.follower] == n.start)
  }

  lemma ProbesStep(s: Net, h: State, a: Action<Value>, h': State, link: Link, rejections: nat)
    requires NodesOk(s, h) && RpcsOk(s, h) && Enabled(s, a) && Evolves(h, h') && link.leader != link.follower
    requires Reigning(s, link.leader, link.term) && Reigning(Next(s, a), link.leader, link.term)
    requires link.follower < |s.nodes| == |h.peers| && Probes(s, h, link, rejections)
    ensures |Next(s, a).nodes| == |s.nodes| == |h'.peers|
    ensures var rejected := a == Return(link) && !s.rpcs[link].reply.success && s.rpcs[link].reply.term <= link.term;
            Probes(Next(s, a), h', link, rejections + if rejected then 1 else 0)
  {
    var l, f := link.leader, link.follower;
    assert PeerEvolves(h.peers[f], h'.peers[f]);
    assert NodeOk(h, l, s.nodes[l]);
    if a == Return(link) {
      assert RpcOk(h, link, s.rpcs[link]);
      ProbesReturn(s, link);
    } else {
      ProbesOther(s, a, link);
    }
  }

  lemma ProbesReturn<V>(s: World<V>, link: Link)
    requires CanReturn(s, link) && Reigning(s, link.leader, link.term)
    requires Reigning(Returned(s, link), link.leader, link.term)
    requires 1 <= s.nodes[link.leader].nextIndex[link.follower]
    ensures var n, n', reply := s.nodes[link.leader], Returned(s, link).nodes[link.leader], s.rpcs[link].reply;
            && |Returned(s, link).nodes| == |s.nodes| && n'.start == n.start && reply.term <= link.term
            && (!reply.success ==> n'.nextIndex[link.follower] == n.nextIndex[link.follower] - 1)
  {}

  lemma ProbesOther<V>(s: World<V>, a: Action<V>, link: Link)
    requires Enabled(s, a) && a != Return(link) && link.leader != link.follower && link.follower < |s.nodes|
    requires Reigning(s, link.leader, link.term) && Reigning(Next(s, a), link.leader, link.term)
    ensures var n, n' := s.nodes[link.leader], Next(s, a).nodes[link.leader];
            && |Next(s, a).nodes| == |s.nodes| && n'.start == n.start
            && n'.nextIndex[link.follower] == n.nextIndex[link.follower]
  {}

  /** A new leader starts probing every follower at the end of its log. */
  lemma NewReign<V>(s: World<V>, a: Action<V>, l: nat, t: nat)
    requires Enabled(s, a) && l < |s.nodes| && !Reigning(s, l, t) && (s.nodes[l].role == Leader ==> Leads(s, l))
    requires Reigning(Next(s, a), l, t)
    ensures var n := Next(s, a).nodes[l];
            |Next(s, a).nodes| == |s.nodes| && 1 <= n.start &&
            forall f :: 0 <= f < |s.nodes| ==> n.nextIndex[f] == n.start
  {}

  lemma LedBefore(worlds: seq<Net>, hs: seq<State>, i: nat, j: nat, l: nat, t: nat)
    requires IsHistory(worlds, hs) && i <= j < |worlds| && Reigning(worlds[j], l, t) && t in hs[i].lead
    ensures l < |worlds[i].nodes| && hs[i].lead[t].owner == l && worlds[i].nodes[l].term == t
  {
    assert Inv(hs[i]) && Evolves(hs[i], hs[j]) && ReignOk(hs[i], t);
    assert ReignEvolves(hs[i].lead[t], hs[j].lead[t]);
    HistoryNode(worlds, hs, j, l);
    HistoryNode(worlds, hs, i, l);
    assert PeerEvolves(hs[i].peers[l], hs[j].peers[l]);
  }

  /** The first moment of a reign. */
  lemma ProbesStart(size: nat, worlds: seq<Net>, actions: seq<Action<Value>>, hs: seq<State>, k: nat, link: Link)
    requires IsRun(size, worlds, actions) && IsHistory(worlds, hs) && k + 1 < |worlds| && link.term !in hs[k].lead
    requires Reigning(worlds[k + 1], link.leader, link.term)
    requires link.follower < |worlds[k + 1].nodes| == |hs[k + 1].peers|
    ensures Probes(worlds[k + 1], hs[k + 1], link, Rejections(worlds, actions, k + 1, link))
  {
    assert Inv(hs[k]) && Enabled(worlds[k], actions[k]) && worlds[k + 1] == Next(worlds[k], actions[k]);
    NoneBefore(size, worlds, actions, hs, k, link);
    NodeBefore(worlds, hs, k, link.leader);
    NotReigning(worlds, hs, k, link.leader, link.term);
    NewReign(worlds[k], actions[k], link.leader, link.term);
  }

  lemma NodeBefore(worlds: seq<Net>, hs: seq<State>, k: nat, l: nat)
    requires IsHistory(worlds, hs) && k + 1 < |worlds| && l < |worlds[k + 1].nodes|
    ensures l < |worlds[k].nodes|
  {
    assert Evolves(hs[k], hs[k + 1]) && Inv(hs[k]) && Inv(hs[k + 1]);
  }

  lemma ReignGoesOn(size: nat, worlds: seq<Net>, actions: seq<Action<Value>>, hs: seq<State>, k: nat, l: nat, t: nat)
    requires IsRun(size, worlds, actions) && IsHistory(worlds, hs) && k + 1 < |worlds|
    requires t in hs[k].lead && Reigning(worlds[k + 1], l, t)
    ensures Reigning(worlds[k], l, t) && |worlds[k].nodes| == |worlds[k + 1].nodes| == |hs[k].peers|
  {
    assert Inv(hs[k]) && Evolves(hs[k], hs[k + 1]) && Inv(hs[k + 1]);
    assert Enabled(worlds[k], actions[k]) && worlds[k + 1] == Next(worlds[k], actions[k]);
    LedBefore(worlds, hs, k, k + 1, l, t);
    NotElectedTwice(worlds[k], hs[k], actions[k], l, t);
  }

  lemma ProbesOn(size: nat, worlds: seq<Net>, actions: seq<Action<Value>>, hs: seq<State>, k: nat, link: Link,
                 rejections: nat)
    requires IsRun(size, worlds, actions) && IsHistory(worlds, hs) && k + 1 < |worlds| && link.leader != link.follower
    requires Reigning(worlds[k], link.leader, link.term) && Reigning(worlds[k + 1], link.leader, link.term)
    requires link.follower < |worlds[k].nodes| == |hs[k].peers| && Probes(worlds[k], hs[k], link, rejections)
    ensures |worlds[k + 1].nodes| == |worlds[k].nodes| == |hs[k + 1].peers|
    ensures Probes(worlds[k + 1], hs[k + 1], link, rejections + if Rejected(worlds, actions, k, link) then 1 else 0)
  {
    assert Inv(hs[k]) && Evolves(hs[k], hs[k + 1]);
    assert Enabled(worlds[k], actions[k]) && worlds[k + 1] == Next(worlds[k], actions[k]);
    ProbesStep(worlds[k], hs[k], actions[k], hs[k + 1], link, rejections);
  }

  lemma {:induction false} ProbesAt(size: nat, worlds: seq<Net>, actions: seq<Action<Value>>, hs: seq<State>, i: nat,
                                    link: Link)
    requires IsRun(size, worlds, actions) && IsHistory(worlds, hs) && i < |worlds| && link.leader != link.follower
    requires Reigning(worlds[i], link.leader, link.term) && link.follower < |worlds[i].nodes| == |hs[i].peers|
    ensures Probes(worlds[i], hs[i], link, Rejections(worlds, actions, i, link))
    decreases i
  {
    if i > 0 {
      var k, l, t := i - 1, link.leader, link.term;
      if t in hs[k].lead {
        ReignGoesOn(size, worlds, actions, hs, k, l, t);
        ProbesAt(size, worlds, actions, hs, k, link);
        ProbesOn(size, worlds, actions, hs, k, link, Rejections(worlds, actions, k, link));
      } else {
        ProbesStart(size, worlds, actions, hs, k, link);
      }
    }
  }

  lemma NotReigning(worlds: seq<Net>, hs: seq<State>, k: nat, l: nat, t: nat)
    requires IsHistory(worlds, hs) && k < |worlds| && l < |worlds[k].nodes| && t !in hs[k].lead
    ensures !Reigning(worlds[k], l, t) && (worlds[k].nodes[l].role == Leader ==> Leads(worlds[k], l))
  {
    HistoryNode(worlds, hs, k, l);
  }

  /** In every run a session has at most as many rejections in a reign as the leader's log had entries
      at its election, whatever is lost, and its next index never drops below 1. */
  lemma RejectionsBounded(size: nat, worlds: seq<Net>, actions: seq<Action<Value>>, i: nat, l: nat, f: nat)
    requires IsRun(size, worlds, actions) && i < |worlds| && l != f && f < |worlds[i].nodes|
    requires l < |worlds[i].nodes| && worlds[i].nodes[l].role == Leader
    ensures var n := worlds[i].nodes[l];
            Shaped(n, |worlds[i].nodes|) && 1 <= n.nextIndex[f] &&
            Rejections(worlds, actions, i, Link(l, n.term, f)) <= n.start - 1
  {
    var hs := RunHistory(size, worlds, actions);
    HistoryNode(worlds, hs, i, l);
    var n := worlds[i].nodes[l];
    assert SessionOk(hs[i], n.term, f, n.nextIndex[f], n.matchIndex[f]);
    ProbesAt(size, worlds, actions, hs, i, Link(l, n.term, f));
  }
}
