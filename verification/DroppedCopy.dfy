/** A run of the program in which a follower drops its copy of a committed message.

    Node 0 leads three nodes; node 1 is its main node, node 2 is spare. The first calls to both fail, so
    node 1 counts as dead and node 2 is sent the message, but its answer is lost. An empty call that
    was on its way to node 1 returns: node 1 is alive again, and node 2 is sent committed entries only.
    Before that request arrives the message commits with node 1. The copy of node 2 was not counted.
 */
module DroppedCopy {
  import opened Entries
  import opened Replica
  import opened Cluster
  import opened Metamorphosis
  import opened MainNodes

  const BALLOT := VoteRequest(1, 0, 0, 0)
  const ANSWER := VoteAnswer(1, BALLOT, VoteReply(0, true))
  const STEPS := 21

  function New(): Node<Msg> { Restarted(0, None, []) }

  function Candidacy(): Node<Msg> { New().(term := 1, votedFor := Some(0), role := Candidate, votes := {0}) }

  /** Node 0 as leader, with its log, its pending entries and its next and match indexes. */
  function Lead(log: seq<Entry<Msg>>, pending: seq<Entry<Msg>>, next: seq<nat>, matched: seq<nat>,
                waiting: map<nat, nat>): Node<Msg> {
    Candidacy().(role := Leader, votes := {0, 1}, log := log, pending := pending, start := 1, nextIndex := next,
                 matchIndex := matched, waiting := waiting)
  }

  function Lead0(): Node<Msg> { Lead([], [], [1, 1, 1], [0, 0, 0], map[]) }

  function Lead1(m: Msg): Node<Msg> { Lead([], [Entry(1, m)], [2, 1, 1], [0, 0, 0], map[1 := 0]) }

  function Lead2(m: Msg): Node<Msg> { Lead([Entry(1, m)], [], [2, 1, 1], [1, 0, 0], map[1 := 0]) }

  function Lead3(m: Msg): Node<Msg> {
    Lead([Entry(1, m)], [], [2, 2, 1], [1, 1, 0], map[1 := 0]).(commit := 1, applied := [m])
  }

  function Voter(log: seq<Entry<Msg>>): Node<Msg> { New().(term := 1, votedFor := Some(0), log := log) }

  function Joined(log: seq<Entry<Msg>>): Node<Msg> { New().(term := 1, log := log) }

  function Whole(m: Msg): AppendRequest<Msg> { AppendRequest(1, 0, 0, 0, [Entry(1, m)], 0) }

  function Empty(): AppendRequest<Msg> { AppendRequest(1, 0, 0, 0, [], 0) }

  function To(f: nat): Link { Link(0, 1, f) }

  /** After the election, before the message. */
  function Before(rpcs: map<Link, Rpc<Msg>>, now: nat): Shelf {
    World([Lead0(), Voter([]), New()], rpcs, {BALLOT}, {ANSWER}, [], now)
  }

  /** With the message's call waiting. */
  function During(leader: Node<Msg>, second: Node<Msg>, third: Node<Msg>, rpcs: map<Link, Rpc<Msg>>, m: Msg,
                  now: nat): Shelf {
    World([leader, second, third], rpcs, {BALLOT}, {ANSWER}, [Call(0, 1, 1, m, 9, Waiting)], now)
  }

  /** With the message committed. */
  function Finally(m: Msg, third: Node<Msg>, rpc: Rpc<Msg>, now: nat): Shelf {
    World([Lead3(m), Voter([Entry(1, m)]), third], map[To(2) := rpc], {BALLOT}, {ANSWER},
          [Call(0, 1, 1, m, 9, Woken(Some([m])))], now)
  }

  function WorldAt(m: Msg, i: nat): Shelf {
    var mine, sent, done := [Entry(1, m)], Sent(Empty()), Answered(Empty(), AppendReply(1, true));
    match i
    case 0 => World([New(), New(), New()], map[], {}, {}, [], 0)
    case 1 => World([Candidacy(), New(), New()], map[], {BALLOT}, {}, [], 1)
    case 2 => World([Candidacy(), Voter([]), New()], map[], {BALLOT}, {ANSWER}, [], 2)
    case 3 => Before(map[], 3)
    case 4 => Before(map[To(1) := sent], 4)
    case 5 => Before(map[To(1) := sent, To(2) := sent], 5)
    case 6 => Before(map[To(1) := sent, To(2) := sent], 6)
    case 7 => Before(map[To(2) := sent], 7)
    case 8 => Before(map[], 8)
    case 9 => Before(map[To(1) := sent], 9)
    case 10 => During(Lead1(m), Voter([]), New(), map[To(1) := sent], m, 10)
    case 11 => During(Lead2(m), Voter([]), New(), map[To(1) := sent], m, 11)
    case 12 => During(Lead2(m), Voter([]), New(), map[To(1) := sent, To(2) := Sent(Whole(m))], m, 12)
    case 13 => During(Lead2(m), Voter([]), Joined(mine),
                      map[To(1) := sent, To(2) := Answered(Whole(m), AppendReply(0, true))], m, 13)
    case 14 => During(Lead2(m), Voter([]), Joined(mine), map[To(1) := sent], m, 14)
    case 15 => During(Lead2(m), Voter([]), Joined(mine), map[To(1) := done], m, 15)
    case 16 => During(Lead2(m), Voter([]), Joined(mine), map[], m, 16)
    case 17 => During(Lead2(m), Voter([]), Joined(mine), map[To(1) := Sent(Whole(m))], m, 17)
    case 18 => During(Lead2(m), Voter([]), Joined(mine), map[To(1) := Sent(Whole(m)), To(2) := sent], m, 18)
    case 19 => During(Lead2(m), Voter(mine), Joined(mine),
                      map[To(1) := Answered(Whole(m), AppendReply(1, true)), To(2) := sent], m, 19)
    case 20 => Finally(m, Joined(mine), sent, 20)
    case _ => Finally(m, Joined([]), done, 21)
  }

  function ActionAt(m: Msg, i: nat): Action<Msg> {
    match i
    case 0 => Timeout(0)
    case 1 => AskVote(1, BALLOT)
    case 2 => CountVote(ANSWER)
    case 3 => Send(0, 1, 0)
    case 4 => Send(0, 2, 0)
    case 5 => Write(0)
    case 6 => Lose(To(1))
    case 7 => Lose(To(2))
    case 8 => Send(0, 1, 0)
    case 9 => Execute(0, m)
    case 10 => Write(0)
    case 11 => Send(0, 2, 1)
    case 12 => Deliver(To(2))
    case 13 => Lose(To(2))
    case 14 => Deliver(To(1))
    case 15 => Return(To(1))
    case 16 => Send(0, 1, 1)
    case 17 => Send(0, 2, 0)
    case 18 => Deliver(To(1))
    case 19 => Return(To(1))
    case _ => Deliver(To(2))
  }

  ghost predicate StepAt(md5: string -> Hash, m: Msg, i: nat) {
    QueueStep(md5, WorldAt(m, i), ActionAt(m, i), WorldAt(m, i + 1))
  }

  // ---------------------------------------------------------------- the steps

  /** A request of node 0 goes out. */
  lemma SendIsStep(md5: string -> Hash, s: Shelf, f: nat, last: nat, r: AppendRequest<Msg>, s': Shelf)
    requires CanShip(s, 0, f, last)
    requires r == LightRequest(s.nodes[0], 0, s.nodes[0].nextIndex[f], last, StripMsg)
    requires s' == s.(rpcs := s.rpcs[Link(0, s.nodes[0].term, f) := Sent(r)], now := s.now + 1)
    ensures QueueStep(md5, s, Send(0, f, last), s')
  {}

  /** A request arrives at a node that is no leader. */
  lemma DeliverIsStep(md5: string -> Hash, s: Shelf, link: Link, n: Node<Msg>, reply: AppendReply, s': Shelf)
    requires CanDeliver(s, link) && s.nodes[link.follower].role != Leader
    requires HandleAppend(s.nodes[link.follower], s.rpcs[link].request) == (n, reply)
    requires s' == s.(nodes := s.nodes[link.follower := n],
                      rpcs := s.rpcs[link := Answered(s.rpcs[link].request, reply)], now := s.now + 1)
    ensures QueueStep(md5, s, Deliver(link), s')
  {}

  /** An answer comes back to its leader. */
  lemma ReturnIsStep(md5: string -> Hash, s: Shelf, link: Link, n: Node<Msg>, s': Shelf)
    requires CanReturn(s, link) && n.role == Leader
    requires HandleAppendReply(s.nodes[link.leader], |s.nodes|, link.follower,
                               s.rpcs[link].request, s.rpcs[link].reply) == n
    requires s' == s.(nodes := s.nodes[link.leader := n], calls := FinishCalls(s.calls, s.nodes[link.leader], n),
                      rpcs := s.rpcs - {link}, now := s.now + 1)
    ensures QueueStep(md5, s, Return(link), s')
  {}

  lemma Stands(md5: string -> Hash, m: Msg)
    ensures StepAt(md5, m, 0)
  {}

  lemma Votes(md5: string -> Hash, m: Msg)
    ensures StepAt(md5, m, 1)
  {
    assert HandleVote(New(), BALLOT) == (Voter([]), VoteReply(0, true));
  }

  lemma Wins(md5: string -> Hash, m: Msg)
    ensures StepAt(md5, m, 2)
  {
    assert HandleVoteReply(Candidacy(), 3, 1, 1, VoteReply(0, true)) == Lead0() by {
      assert {0} + {1} == {0, 1} && |{0, 1}| == 2;
      assert Repeat(3, 1) == [1, 1, 1] && Repeat(3, 0) == [0, 0, 0];
    }
  }

  lemma EmptyRequest(n: Node<Msg>)
    requires n.term == 1 && n.commit == 0
    ensures LightRequest(n, 0, 1, 0, StripMsg) == Empty()
  {
    assert Lighten<Msg>([], 1, 0, StripMsg) == [];
  }

  lemma WholeRequest(m: Msg)
    ensures LightRequest(Lead2(m), 0, 1, 1, StripMsg) == Whole(m)
  {
    assert Lighten([Entry(1, m)], 1, 0, StripMsg) == [Entry(1, m)];
  }

  lemma EmptySends(md5: string -> Hash, m: Msg, i: nat)
    requires i == 3 || i == 4 || i == 8 || i == 17
    ensures StepAt(md5, m, i)
  {
    EmptyRequest(if i == 17 then Lead2(m) else Lead0());
    SendIsStep(md5, WorldAt(m, i), if i == 4 || i == 17 then 2 else 1, 0, Empty(), WorldAt(m, i + 1));
  }

  lemma SendToThird(md5: string -> Hash, m: Msg)
    ensures StepAt(md5, m, 11)
  {
    WholeRequest(m);
    SendIsStep(md5, WorldAt(m, 11), 2, 1, Whole(m), WorldAt(m, 12));
  }

  lemma SendToSecond(md5: string -> Hash, m: Msg)
    ensures StepAt(md5, m, 16)
  {
    WholeRequest(m);
    SendIsStep(md5, WorldAt(m, 16), 1, 1, Whole(m), WorldAt(m, 17));
  }

  lemma Losses(md5: string -> Hash, m: Msg, i: nat)
    requires i == 6 || i == 7 || i == 13
    ensures StepAt(md5, m, i)
  {
    var sent := Sent(Empty());
    assert map[To(1) := sent, To(2) := sent] - {To(1)} == map[To(2) := sent];
    assert map[To(2) := sent] - {To(2)} == map[];
    assert map[To(1) := sent, To(2) := Answered(Whole(m), AppendReply(0, true))] - {To(2)} == map[To(1) := sent];
  }

  lemma FirstWrite(md5: string -> Hash, m: Msg)
    ensures StepAt(md5, m, 5)
  {
    assert Saved(Lead0(), 0) == Lead0();
    assert UpdateCommitIndex(Lead0(), 3) == Lead0();
  }

  lemma Submitted(md5: string -> Hash, m: Msg)
    requires m.data != "" && m.hash == md5(m.data)
    ensures StepAt(md5, m, 9)
  {
    assert Submit(Lead0(), 0, m, 0) == Lead1(m) by { assert [1, 1, 1][0 := 2] == [2, 1, 1]; }
  }

  lemma SecondWrite(md5: string -> Hash, m: Msg)
    ensures StepAt(md5, m, 10)
  {
    var n := Saved(Lead1(m), 0);
    assert n.matchIndex == [1, 0, 0];
    assert Holders(n.matchIndex, 1) == {0};
    assert UpdateCommitIndex(n, 3) == Lead2(m);
    var calls := [Call(0, 1, 1, m, 9, Waiting)];
    assert FinishCalls(calls, Lead1(m), Lead2(m)) == calls;
  }

  lemma AcceptsWhole(m: Msg, n: Node<Msg>)
    requires n == New() || n == Voter([])
    ensures HandleAppend(n, Whole(m)) == (n.(term := 1, log := [Entry(1, m)]), AppendReply(n.term, true))
  {
    assert Stored([], 0, Whole(m)) == [Entry(1, m)];
    assert [] + Values(Skip(Take([Entry(1, m)], 0), 0)) == [];
  }

  lemma AcceptsEmpty(n: Node<Msg>)
    requires n.term == 1 && n.commit == 0 && n.role == Follower
    ensures HandleAppend(n, Empty()) == (n.(log := []), AppendReply(1, true))
  {
    assert n.applied + Values(Skip(Take<Entry<Msg>>([], 0), 0)) == n.applied;
  }

  lemma ThirdAccepts(md5: string -> Hash, m: Msg)
    ensures StepAt(md5, m, 12)
  {
    AcceptsWhole(m, New());
    DeliverIsStep(md5, WorldAt(m, 12), To(2), Joined([Entry(1, m)]), AppendReply(0, true), WorldAt(m, 13));
  }

  lemma SecondAccepts(md5: string -> Hash, m: Msg)
    ensures StepAt(md5, m, 18)
  {
    AcceptsWhole(m, Voter([]));
    var rpcs, done := map[To(1) := Sent(Whole(m)), To(2) := Sent(Empty())], Answered(Whole(m), AppendReply(1, true));
    var s := During(Lead2(m), Voter([]), Joined([Entry(1, m)]), rpcs, m, 18);
    assert rpcs[To(1) := done] == map[To(1) := done, To(2) := Sent(Empty())];
    DeliverIsStep(md5, s, To(1), Voter([Entry(1, m)]), AppendReply(1, true), WorldAt(m, 19));
  }

  lemma EmptyArrives(md5: string -> Hash, m: Msg)
    ensures StepAt(md5, m, 14)
  {
    AcceptsEmpty(Voter([]));
    DeliverIsStep(md5, WorldAt(m, 14), To(1), Voter([]), AppendReply(1, true), WorldAt(m, 15));
  }

  lemma ThirdDrops(md5: string -> Hash, m: Msg)
    ensures StepAt(md5, m, 20)
  {
    AcceptsEmpty(Joined([Entry(1, m)]));
    DeliverIsStep(md5, WorldAt(m, 20), To(2), Joined([]), AppendReply(1, true), WorldAt(m, 21));
  }

  lemma NothingNew(m: Msg)
    ensures HandleAppendReply(Lead2(m), 3, 1, Empty(), AppendReply(1, true)) == Lead2(m)
  {
    var n := Confirmed(Lead2(m), 1, Empty());
    assert n == Lead2(m) by {
      assert [1, 0, 0][1 := 0] == [1, 0, 0] && [2, 1, 1][1 := 1] == [2, 1, 1];
    }
    assert Holders(n.matchIndex, 1) == {0};
    assert UpdateCommitIndex(n, 3) == Lead2(m);
  }

  lemma NobodyWakes(n: Node<Msg>, calls: seq<Call<Msg>>)
    ensures FinishCalls(calls, n, n) == calls
  {}

  lemma EmptyReturn(md5: string -> Hash, m: Msg)
    ensures StepAt(md5, m, 15)
  {
    NothingNew(m);
    NobodyWakes(Lead2(m), [Call(0, 1, 1, m, 9, Waiting)]);
    assert map[To(1) := Answered(Empty(), AppendReply(1, true))] - {To(1)} == map[];
    ReturnIsStep(md5, WorldAt(m, 15), To(1), Lead2(m), WorldAt(m, 16));
  }

  lemma Counted(m: Msg)
    ensures HandleAppendReply(Lead2(m), 3, 1, Whole(m), AppendReply(1, true)) == Lead3(m)
  {
    var n := Confirmed(Lead2(m), 1, Whole(m));
    assert n.matchIndex == [1, 1, 0] && n.nextIndex == [2, 2, 1];
    assert Holders(n.matchIndex, 1) == {0, 1};
    assert UpdateCommitIndex(n, 3) == Lead3(m);
  }

  lemma Commits(md5: string -> Hash, m: Msg)
    ensures StepAt(md5, m, 19)
  {
    Counted(m);
    var calls := [Call(0, 1, 1, m, 9, Waiting)];
    assert Take(Lead3(m).applied, 1) == [m];
    assert FinishCalls(calls, Lead2(m), Lead3(m)) == [Call(0, 1, 1, m, 9, Woken(Some([m])))];
    var rpcs := map[To(1) := Answered(Whole(m), AppendReply(1, true)), To(2) := Sent(Empty())];
    assert rpcs - {To(1)} == map[To(2) := Sent(Empty())];
    ReturnIsStep(md5, WorldAt(m, 19), To(1), Lead3(m), WorldAt(m, 20));
  }

  lemma EveryStep(md5: string -> Hash, m: Msg, i: nat)
    requires i < STEPS && m.data != "" && m.hash == md5(m.data)
    ensures StepAt(md5, m, i)
  {
    if i == 0 { Stands(md5, m); }
    else if i == 1 { Votes(md5, m); }
    else if i == 2 { Wins(md5, m); }
    else if i == 3 || i == 4 || i == 8 || i == 17 { EmptySends(md5, m, i); }
    else if i == 5 { FirstWrite(md5, m); }
    else if i == 6 || i == 7 || i == 13 { Losses(md5, m, i); }
    else if i == 9 { Submitted(md5, m); }
    else if i == 10 { SecondWrite(md5, m); }
    else if i == 11 { SendToThird(md5, m); }
    else if i == 16 { SendToSecond(md5, m); }
    else if i == 14 { EmptyArrives(md5, m); }
    else if i == 12 { ThirdAccepts(md5, m); }
    else if i == 18 { SecondAccepts(md5, m); }
    else if i == 15 { EmptyReturn(md5, m); }
    else if i == 19 { Commits(md5, m); }
    else { ThirdDrops(md5, m); }
  }

  // ---------------------------------------------------------------- the sends

  /** What the sessions of node 0 think of nodes 0, 1 and 2 before step i. */
  function Alive(i: nat): seq<bool> {
    if i <= 6 then [true, true, true] else if i == 7 then [true, false, true]
    else if i <= 15 then [true, false, false] else [true, true, false]
  }

  lemma ThreeNodes(m: Msg, i: nat)
    ensures |WorldAt(m, i).nodes| == 3
    ensures WorldAt(m, i).nodes[0].role == Leader <==> i >= 3
    ensures i >= 3 ==> WorldAt(m, i).nodes[0].term == 1
  {}

  lemma AliveStep(m: Msg, i: nat)
    requires i < STEPS
    ensures |WorldAt(m, i).nodes| == |WorldAt(m, i + 1).nodes| == 3
    ensures AliveAfter(Alive(i), WorldAt(m, i), ActionAt(m, i), WorldAt(m, i + 1), 0) == Alive(i + 1)
  {
    ThreeNodes(m, i);
    ThreeNodes(m, i + 1);
    AliveMarks(WorldAt(m, i), m, i, WorldAt(m, i + 1));
  }

  lemma AliveMarks(s: Shelf, m: Msg, i: nat, s': Shelf)
    requires i < STEPS && |s.nodes| == |s'.nodes| == 3
    requires s.nodes[0].role == Leader <==> i >= 3
    requires s'.nodes[0].role == Leader <==> i >= 2
    requires i >= 3 ==> s.nodes[0].term == 1
    ensures AliveAfter(Alive(i), s, ActionAt(m, i), s', 0) == Alive(i + 1)
  {
    assert Everyone(3) == [true, true, true];
  }

  ghost predicate AliveNext(worlds: seq<Shelf>, actions: seq<Action<Msg>>, k: nat)
    requires k < |actions| && |worlds| == |actions| + 1
  {
    0 < |worlds[k].nodes| && 0 < |worlds[k + 1].nodes| &&
    AliveAfter(Alive(k), worlds[k], actions[k], worlds[k + 1], 0) == Alive(k + 1)
  }

  lemma {:induction false} AliveIs(worlds: seq<Shelf>, actions: seq<Action<Msg>>, i: nat)
    requires i < |worlds| == |actions| + 1 && forall k :: 0 <= k < |worlds| ==> 0 < |worlds[k].nodes|
    requires forall k {:trigger AliveNext(worlds, actions, k)} :: 0 <= k < |actions| ==> AliveNext(worlds, actions, k)
    ensures AliveAt(3, worlds, actions, 0, i) == Alive(i)
  {
    if i == 0 {
      assert Everyone(3) == [true, true, true];
    } else {
      AliveIs(worlds, actions, i - 1);
      assert AliveNext(worlds, actions, i - 1);
    }
  }

  lemma SendIs(m: Msg, i: nat)
    requires i < STEPS && ActionAt(m, i).Send?
    ensures |WorldAt(m, i).nodes| == 3 && |WorldAt(m, i).nodes[0].nextIndex| == 3
    ensures var n, f := WorldAt(m, i).nodes[0], ActionAt(m, i).follower;
            ActionAt(m, i).node == 0 && f < 3 && n.nextIndex[f] == 1 &&
            ActionAt(m, i).last == LastSent(n, 0, 3, f, Alive(i))
  {
    assert IsMainNode(0, 3, 1) && !IsMainNode(0, 3, 2);
    if i == 11 { assert !Alive(i)[1]; }
  }

  // ---------------------------------------------------------------- the run

  ghost predicate Written(m: Msg, worlds: seq<Shelf>, actions: seq<Action<Msg>>) {
    && |worlds| == STEPS + 1 && (forall i :: 0 <= i < |worlds| ==> worlds[i] == WorldAt(m, i))
    && |actions| == STEPS && (forall i :: 0 <= i < |actions| ==> actions[i] == ActionAt(m, i))
  }

  lemma RunOfQueue(md5: string -> Hash, m: Msg, worlds: seq<Shelf>, actions: seq<Action<Msg>>)
    requires Written(m, worlds, actions) && m.data != "" && m.hash == md5(m.data)
    ensures IsQueueRun(md5, 3, worlds, actions)
  {
    forall i | 0 <= i < |actions| ensures QueueStep(md5, worlds[i], actions[i], worlds[i + 1]) {
      EveryStep(md5, m, i);
      assert StepAt(md5, m, i);
    }
  }

  lemma SendsOfProgram(m: Msg, worlds: seq<Shelf>, actions: seq<Action<Msg>>, i: nat)
    requires Written(m, worlds, actions) && i < |actions| && forall k :: 0 <= k < |worlds| ==> |worlds[k].nodes| == 3
    ensures SendsAsProgram(3, worlds, actions, 0, i)
  {
    forall k | 0 <= k < |actions| ensures AliveNext(worlds, actions, k) { AliveStep(m, k); }
    if actions[i].Send? {
      SendIs(m, i);
      AliveIs(worlds, actions, i);
    }
  }

  /** Every send of the run is the one the program makes. Before the last step the message is committed
      and the third node holds it; after the step it does not. */
  lemma CommittedCopyDropped(md5: string -> Hash, data: string) returns (worlds: seq<Shelf>, actions: seq<Action<Msg>>)
    requires data != ""
    ensures IsQueueRun(md5, 3, worlds, actions) && |actions| == STEPS
    ensures forall k :: 0 <= k < |worlds| ==> |worlds[k].nodes| == 3
    ensures forall i :: 0 <= i < |actions| ==> SendsAsProgram(3, worlds, actions, 0, i)
    ensures var leader, before, after := worlds[STEPS - 1].nodes[0], worlds[STEPS - 1].nodes[2], worlds[STEPS].nodes[2];
            leader.role == Leader && leader.commit == 1 && |before.log| == 1 &&
            before.log == leader.log && after.log == []
  {
    var m := Msg(7, md5(data), data);
    worlds := seq(STEPS + 1, i requires i >= 0 => WorldAt(m, i));
    actions := seq(STEPS, i requires i >= 0 => ActionAt(m, i));
    RunOfQueue(md5, m, worlds, actions);
    forall k | 0 <= k < |worlds| ensures |worlds[k].nodes| == 3 { ThreeNodes(m, k); }
    forall i | 0 <= i < |actions| ensures SendsAsProgram(3, worlds, actions, 0, i) {
      SendsOfProgram(m, worlds, actions, i);
    }
  }
}
