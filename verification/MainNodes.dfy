/** The main nodes: with the leader they are just a majority, and all messages go to them. */
module MainNodes {
  import opened Entries
  import opened Replica
  import opened Cluster

  /** Whether the leader me counts another node among its main nodes. */
  predicate IsMainNode(me: nat, size: nat, index: nat) {
    index < if me >= Majority(size) then Majority(size) - 1 else Majority(size)
  }

  /** The leader and its main nodes. */
  function MainGroup(me: nat, size: nat): set<nat> {
    set j: nat | j < size && (j == me || IsMainNode(me, size, j))
  }

  function FirstNodes(k: nat): (r: set<nat>)
    ensures |r| == k && forall j :: j in r <==> 0 <= j < k
  {
    if k == 0 then {} else FirstNodes(k - 1) + {k - 1}
  }

  /** The main group has exactly as many nodes as a majority needs. */
  lemma MainGroupIsMajority(me: nat, size: nat)
    requires me < size
    ensures |MainGroup(me, size)| == Majority(size)
  {
    var majority := Majority(size);
    if me >= majority {
      assert MainGroup(me, size) == FirstNodes(majority - 1) + {me};
    } else {
      assert MainGroup(me, size) == FirstNodes(majority);
    }
  }

  /** The main group without the nodes whose session reported a failure last. */
  function AliveGroup(me: nat, size: nat, alive: seq<bool>): set<nat>
    requires |alive| == size
  {
    set j: nat | j in MainGroup(me, size) && (j == me || alive[j])
  }

  function Everyone(size: nat): (r: seq<bool>)
    ensures |r| == size && forall j :: 0 <= j < size ==> r[j]
  {
    seq(size, _ => true)
  }

  lemma SubsetSize(a: set<nat>, b: set<nat>)
    requires a <= b
    ensures |a| <= |b| && (|a| == |b| ==> a == b)
  {
    assert b == a + (b - a);
  }

  /** The leader's count reaches the majority if and only if every main node is alive. */
  lemma AllMainAlive(me: nat, size: nat, alive: seq<bool>)
    requires me < size == |alive|
    ensures |AliveGroup(me, size, alive)| == Majority(size) <==>
            forall j :: 0 <= j < size && j != me && IsMainNode(me, size, j) ==> alive[j]
  {
    MainGroupIsMajority(me, size);
    var all, live := MainGroup(me, size), AliveGroup(me, size, alive);
    SubsetSize(live, all);
    if forall j :: 0 <= j < size && j != me && IsMainNode(me, size, j) ==> alive[j] {
      assert live == all;
    } else {
      var j :| 0 <= j < size && j != me && IsMainNode(me, size, j) && !alive[j];
      assert j in all && j !in live;
    }
  }

  /** A follower that is sent committed entries only: no main node, while all main nodes are alive. */
  predicate Spare(me: nat, size: nat, f: nat, alive: seq<bool>)
    requires |alive| == size
  {
    !IsMainNode(me, size, f) && forall j :: 0 <= j < size && j != me && IsMainNode(me, size, j) ==> alive[j]
  }

  /** The last index of what leader n sends to follower f. */
  function LastSent<V>(n: Node<V>, me: nat, size: nat, f: nat, alive: seq<bool>): nat
    requires |alive| == size && f < |n.nextIndex| && 1 <= n.nextIndex[f]
  {
    if Spare(me, size, f, alive) then Max(n.commit, n.nextIndex[f] - 1) else |n.log| + |n.pending|
  }

  /** The leader and the followers that are sent all it has, saved or not. */
  function Reached<V>(n: Node<V>, me: nat, size: nat, alive: seq<bool>): set<nat>
    requires |alive| == size == |n.nextIndex| && forall f :: 0 <= f < size ==> 1 <= n.nextIndex[f]
  {
    set f: nat | f < size && (f == me || LastSent(n, me, size, f, alive) == |n.log| + |n.pending|)
  }

  /** The leader and the followers it thinks alive. */
  function Alive(me: nat, size: nat, alive: seq<bool>): set<nat>
    requires |alive| == size
  {
    set f: nat | f < size && (f == me || alive[f])
  }

  /** Sending less to some never costs the majority: if the leader and the followers it thinks alive
      are one, so are the leader and those of them that are sent everything. */
  lemma AliveMajorityReached<V>(n: Node<V>, me: nat, size: nat, alive: seq<bool>)
    requires me < size == |alive| == |n.nextIndex| && forall f :: 0 <= f < size ==> 1 <= n.nextIndex[f]
    requires |Alive(me, size, alive)| >= Majority(size)
    ensures |Alive(me, size, alive) * Reached(n, me, size, alive)| >= Majority(size)
  {
    var up, reached := Alive(me, size, alive), Reached(n, me, size, alive);
    if forall j :: 0 <= j < size && j != me && IsMainNode(me, size, j) ==> alive[j] {
      MainGroupIsMajority(me, size);
      SubsetSize(MainGroup(me, size), up * reached);
    } else {
      assert up * reached == up;
    }
  }

  /** While every main node is alive, a follower is sent more than the committed part, if there is
      more, exactly when it is a main node; with the leader these are just a majority. */
  lemma OnlyMainReached<V>(n: Node<V>, me: nat, size: nat, alive: seq<bool>)
    requires me < size == |alive| == |n.nextIndex| && forall f :: 0 <= f < size ==> 1 <= n.nextIndex[f]
    requires forall j :: 0 <= j < size && j != me && IsMainNode(me, size, j) ==> alive[j]
    ensures forall f :: 0 <= f < size && Max(n.commit, n.nextIndex[f] - 1) < |n.log| + |n.pending| ==>
              (LastSent(n, me, size, f, alive) > Max(n.commit, n.nextIndex[f] - 1) <==> IsMainNode(me, size, f))
    ensures |set f: nat | f < size && (f == me || IsMainNode(me, size, f))| == size / 2 + 1
  {
    MainGroupIsMajority(me, size);
    assert MainGroup(me, size) == set f: nat | f < size && (f == me || IsMainNode(me, size, f));
  }

  /** Once a main node is thought dead every follower is sent everything. */
  lemma AllReached<V>(n: Node<V>, me: nat, size: nat, alive: seq<bool>, dead: nat)
    requires me < size == |alive| == |n.nextIndex| && forall f :: 0 <= f < size ==> 1 <= n.nextIndex[f]
    requires dead < size && dead != me && IsMainNode(me, size, dead) && !alive[dead]
    ensures forall f :: 0 <= f < size ==> f in Reached(n, me, size, alive)
  {}

  // ---------------------------------------------------------------- in a run

  /** A call of l's session that is lost while l leads marks the follower dead, one that returns marks
      it alive, and an election forgets. */
  function AliveAfter<V>(alive: seq<bool>, s: World<V>, a: Action<V>, s': World<V>, l: nat): (r: seq<bool>)
    requires l < |s.nodes| && l < |s'.nodes|
    ensures |r| == |alive|
  {
    if s.nodes[l].role != Leader && s'.nodes[l].role == Leader then Everyone(|alive|) else
    match a
    case Lose(link) =>
      if link.leader == l && s.nodes[l].role == Leader && s.nodes[l].term == link.term && link.follower < |alive|
      then alive[link.follower := false] else alive
    case Return(link) => if link.leader == l && link.follower < |alive| then alive[link.follower := true] else alive
    case _ => alive
  }

  /** What the sessions of node l think of their followers before step i. */
  ghost function AliveAt<V>(size: nat, worlds: seq<World<V>>, actions: seq<Action<V>>, l: nat, i: nat): (r: seq<bool>)
    requires i < |worlds| == |actions| + 1 && forall k :: 0 <= k < |worlds| ==> l < |worlds[k].nodes|
    ensures |r| == size
  {
    if i == 0 then Everyone(size)
    else AliveAfter(AliveAt(size, worlds, actions, l, i - 1), worlds[i - 1], actions[i - 1], worlds[i], l)
  }

  /** Step i sends what the program sends, if it sends anything. */
  ghost predicate SendsAsProgram<V>(size: nat, worlds: seq<World<V>>, actions: seq<Action<V>>, l: nat, i: nat)
    requires i < |actions| && |worlds| == |actions| + 1 && forall k :: 0 <= k < |worlds| ==> l < |worlds[k].nodes|
  {
    actions[i].Send? ==>
      && actions[i].node == l && actions[i].follower < |worlds[i].nodes[l].nextIndex|
      && 1 <= worlds[i].nodes[l].nextIndex[actions[i].follower]
      && actions[i].last == LastSent(worlds[i].nodes[l], l, size, actions[i].follower,
                                     AliveAt(size, worlds, actions, l, i))
  }

  /** One session changes its mind about its follower. */
  lemma AliveChanges(me: nat, size: nat, alive: seq<bool>, node: nat, now: bool)
    requires node < size == |alive| && node != me && alive[node] != now
    ensures |AliveGroup(me, size, alive[node := now])| ==
            |AliveGroup(me, size, alive)| + (if !IsMainNode(me, size, node) then 0 else if now then 1 else -1)
  {
    var a, b := AliveGroup(me, size, alive), AliveGroup(me, size, alive[node := now]);
    if !IsMainNode(me, size, node) {
      assert a == b;
    } else if now {
      assert b == a + {node} && node !in a;
    } else {
      assert a == b + {node} && node !in b;
    }
  }
}
