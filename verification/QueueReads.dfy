/** Reading the queue, and the internal checks of the Metamorphosis handler. */
module QueueReads {
  import opened Entries
  import opened Replica
  import opened Cluster
  import opened Mapping
  import opened Consensus
  import opened Coupling
  import opened Metamorphosis
  import opened CommitBounds
  import opened QueueInv
  import opened Safety
  import opened QueueSafety
  import Acceptance
  import Moves

  datatype ReadReply = NotFound | Failed | FullMessage(data: string) | HashOnly(hash: Hash)

  /** Any node answers, from its own committed log. */
  function Read(n: Node<Msg>, offset: nat): ReadReply {
    if offset > n.commit then NotFound
    else if offset == 0 || offset > |n.log| then Failed
    else
      var m := n.log[offset - 1].value;
      if m.data != "" then FullMessage(m.data) else HashOnly(m.hash)
  }

  /** The answer is about a message with the given text. */
  predicate About(md5: string -> Hash, reply: ReadReply, text: string) {
    match reply
    case FullMessage(data) => data == text
    case HashOnly(hash) => hash == md5(text)
    case _ => false
  }

  predicate Answered(reply: ReadReply) { reply.FullMessage? || reply.HashOnly? }

  /** The answer has the payload of the message, or its hash when the payload is not here. */
  predicate Carries(reply: ReadReply, m: Msg) {
    reply == if m.data != "" then FullMessage(m.data) else HashOnly(m.hash)
  }

  /** What is answered in every state of every run: nothing above the commit index, and everything up
      to it, whatever else the log holds. */
  lemma ReadAnswers(md5: string -> Hash, size: nat, worlds: seq<Shelf>, actions: seq<Action<Msg>>,
                    i: nat, a: nat, offset: nat)
    requires IsQueueRun(md5, size, worlds, actions) && i < |worlds| && a < |worlds[i].nodes|
    ensures var n := worlds[i].nodes[a]; var reply := Read(n, offset);
            && (Answered(reply) <==> 1 <= offset <= n.commit)
            && (reply == NotFound <==> offset > n.commit)
            && (reply == Failed <==> offset == 0)
            && (1 <= offset <= n.commit ==> offset <= |n.log| && Carries(reply, n.log[offset - 1].value))
  {
    var tagged, hs := HistoryOfQueue(md5, size, worlds, actions);
    FormsAt(md5, worlds, tagged, hs, i, a);
  }

  lemma EntryAbout(md5: string -> Hash, n: Node<Tagged>, offset: nat)
    requires NodeForms(md5, n) && 1 <= offset <= n.commit <= |n.log|
    ensures About(md5, Read(MapNode(Erase, n), offset), n.log[offset - 1].value.text)
  {}

  /** Read consistency: all answers for an offset, at any nodes and times, are about one text: full
      answers carry it, and hash-only answers carry its hash. Every offset a node has committed is
      answered. */
  lemma ReadConsistent(md5: string -> Hash, size: nat, worlds: seq<Shelf>, actions: seq<Action<Msg>>,
                       i: nat, j: nat, a: nat, b: nat, offset: nat) returns (text: string)
    requires IsQueueRun(md5, size, worlds, actions) && i < |worlds| && j < |worlds|
    requires a < |worlds[i].nodes| && b < |worlds[j].nodes|
    requires 1 <= offset <= worlds[i].nodes[a].commit && offset <= worlds[j].nodes[b].commit
    ensures About(md5, Read(worlds[i].nodes[a], offset), text) && About(md5, Read(worlds[j].nodes[b], offset), text)
  {
    var tagged, hs := HistoryOfQueue(md5, size, worlds, actions);
    HistoryAt(md5, worlds, tagged, hs, i, a);
    HistoryAt(md5, worlds, tagged, hs, j, b);
    var n, m, k := tagged[i].nodes[a], tagged[j].nodes[b], Max(i, j);
    CommittedKnown(Cores(tagged), hs, i, k, a);
    CommittedKnown(Cores(tagged), hs, j, k, b);
    assert Inv(hs[k]);
    SameText(hs[k], n, m, offset);
    EntryAbout(md5, n, offset);
    EntryAbout(md5, m, offset);
    text := n.log[offset - 1].value.text;
  }

  /** No two answers contradict each other, whatever the nodes have committed when they are asked: any
      two reads of one offset that carry a message or a hash are about one text. */
  lemma ReadsAgree(md5: string -> Hash, size: nat, worlds: seq<Shelf>, actions: seq<Action<Msg>>,
                   i: nat, j: nat, a: nat, b: nat, offset: nat) returns (text: string)
    requires IsQueueRun(md5, size, worlds, actions) && i < |worlds| && j < |worlds|
    requires a < |worlds[i].nodes| && b < |worlds[j].nodes|
    requires Answered(Read(worlds[i].nodes[a], offset)) && Answered(Read(worlds[j].nodes[b], offset))
    ensures About(md5, Read(worlds[i].nodes[a], offset), text) && About(md5, Read(worlds[j].nodes[b], offset), text)
  {
    ReadAnswers(md5, size, worlds, actions, i, a, offset);
    ReadAnswers(md5, size, worlds, actions, j, b, offset);
    text := ReadConsistent(md5, size, worlds, actions, i, j, a, b, offset);
  }

  lemma SameText(h: State, n: Node<Tagged>, m: Node<Tagged>, offset: nat)
    requires Inv(h) && Known(h, n.term, Ids(n.log), n.commit) && Known(h, m.term, Ids(m.log), m.commit)
    requires 1 <= offset <= n.commit && offset <= m.commit
    ensures offset <= |n.log| && offset <= |m.log| && n.log[offset - 1].value.text == m.log[offset - 1].value.text
  {
    if n.commit <= m.commit {
      KnownAgree(h, n.term, Ids(n.log), n.commit, m.term, Ids(m.log), m.commit);
    } else {
      KnownAgree(h, m.term, Ids(m.log), m.commit, n.term, Ids(n.log), n.commit);
    }
    assert Ids(n.log)[offset - 1] == Ids(m.log)[offset - 1];
  }

  // ---------------------------------------------------------------- acknowledged appends

  /** The text of a producer's call is the payload it was made with. */
  lemma {:induction false} CallText(md5: string -> Hash, size: nat, tagged: seq<Queue>, acts: seq<Action<Tagged>>,
                                    i: nat, k: nat)
    requires IsTaggedRun(md5, size, tagged, acts) && i < |tagged| && k < |tagged[i].calls|
    ensures Form(md5, tagged[i].calls[k].value) && Full(tagged[i].calls[k].value)
    decreases i
  {
    if i > 0 {
      var j := i - 1;
      assert TaggedStep(md5, tagged[j], acts[j], tagged[j + 1]);
      Moves.CallMoves(tagged[j], acts[j], Strip, k);
      if k < |tagged[j].calls| { CallText(md5, size, tagged, acts, j, k); }
    }
  }

  /** An acknowledged append: whoever answers a read of its offset answers with its message. */
  lemma AppendReadBack(md5: string -> Hash, size: nat, worlds: seq<Shelf>, actions: seq<Action<Msg>>,
                       i: nat, k: nat, j: nat, b: nat)
    requires IsQueueRun(md5, size, worlds, actions) && i < |worlds| && j < |worlds| && b < |worlds[j].nodes|
    requires k < |worlds[i].calls| && worlds[i].calls[k].phase.Committed?
    requires worlds[i].calls[k].index <= worlds[j].nodes[b].commit
    ensures var c := worlds[i].calls[k]; About(md5, Read(worlds[j].nodes[b], c.index), c.value.data)
  {
    var tagged, acts := TagRun(md5, size, worlds, actions);
    assert MapWorld(Erase, tagged[i]) == worlds[i];
    var hs := HistoryOfTagged(md5, size, worlds, tagged, acts);
    FormsAt(md5, worlds, tagged, hs, j, b);
    CallEntry(md5, size, tagged, acts, i, k, j, b);
    EntryAbout(md5, tagged[j].nodes[b], worlds[i].calls[k].index);
  }

  lemma CallEntry(md5: string -> Hash, size: nat, tagged: seq<Queue>, acts: seq<Action<Tagged>>, i: nat, k: nat,
                  j: nat, b: nat)
    requires IsTaggedRun(md5, size, tagged, acts) && i < |tagged| && j < |tagged| && b < |tagged[j].nodes|
    requires k < |tagged[i].calls| && tagged[i].calls[k].phase.Committed?
    requires tagged[i].calls[k].index <= tagged[j].nodes[b].commit
    ensures var c, n := tagged[i].calls[k], tagged[j].nodes[b];
            1 <= c.index <= n.commit <= |n.log| && n.log[c.index - 1].value.text == c.value.data
  {
    CoreRun(md5, size, tagged, acts);
    CommittedCallApplied(size, Cores(tagged), CoreActions(acts), i, k, j, b);
    CallText(md5, size, tagged, acts, i, k);
  }

  /** Acknowledged appends have different offsets: one accepted before another has the smaller one,
      and so has one acknowledged before the other was made. */
  lemma AppendOrder(md5: string -> Hash, size: nat, worlds: seq<Shelf>, actions: seq<Action<Msg>>, i: nat, k: nat,
                    m: nat)
    requires IsQueueRun(md5, size, worlds, actions) && i < |worlds| && k < |worlds[i].calls| && m < |worlds[i].calls|
    requires k != m && worlds[i].calls[k].phase.Committed? && worlds[i].calls[m].phase.Committed?
    ensures var c, d := worlds[i].calls[k], worlds[i].calls[m];
            c.index != d.index && (k < m ==> c.index < d.index) && (c.phase.at < d.started ==> c.index < d.index)
  {
    var tagged, acts := TagRun(md5, size, worlds, actions);
    CoreRun(md5, size, tagged, acts);
    assert MapWorld(Erase, tagged[i]) == worlds[i];
    ExecuteLinearizable(size, Cores(tagged), CoreActions(acts), i, k, m);
    if k < m { Acceptance.CommittedInOrder(size, Cores(tagged), CoreActions(acts), i, k, m); }
  }

  /** The log of every node lists accepted messages in the order of their acceptance: entry p + 1 is
      a copy of the message of call at[p], which was given that offset. */
  lemma QueueLogFollows(md5: string -> Hash, size: nat, worlds: seq<Shelf>, actions: seq<Action<Msg>>, i: nat, a: nat)
      returns (at: seq<nat>)
    requires IsQueueRun(md5, size, worlds, actions) && i < |worlds| && a < |worlds[i].nodes|
    ensures |at| == |worlds[i].nodes[a].log| && forall p, q :: 0 <= p < q < |at| ==> at[p] < at[q]
    ensures forall p :: 0 <= p < |at| ==> at[p] < |worlds[i].calls|
    ensures forall p :: 0 <= p < |at| ==>
              var c := worlds[i].calls[at[p]];
              c.index == p + 1 && SameEntry(worlds[i].nodes[a].log[p], Entry(c.term, c.value))
  {
    var tagged, acts := TagRun(md5, size, worlds, actions);
    var hs := HistoryOfTagged(md5, size, worlds, tagged, acts);
    FormsAt(md5, worlds, tagged, hs, i, a);
    CoreRun(md5, size, tagged, acts);
    at := Acceptance.LogFollows(size, Cores(tagged), CoreActions(acts), i, a);
    forall k | 0 <= k < |tagged[i].calls| ensures Form(md5, tagged[i].calls[k].value) {
      CallText(md5, size, tagged, acts, i, k);
    }
    AcceptedCopies(md5, tagged[i], a, at);
    assert MapWorld(Erase, tagged[i]) == worlds[i];
    at := at[..|tagged[i].nodes[a].log|];
  }

  lemma AcceptedCopies(md5: string -> Hash, s: Queue, a: nat, at: seq<nat>)
    requires a < |s.nodes| && NodeForms(md5, s.nodes[a])
    requires forall k :: 0 <= k < |s.calls| ==> Form(md5, s.calls[k].value)
    requires Acceptance.Follows(FullLog(MapNode(Identity, s.nodes[a])), MapCalls(Identity, s.calls), at)
    ensures var n, w := s.nodes[a], MapWorld(Erase, s);
            |n.log| <= |at| && forall p :: 0 <= p < |n.log| ==>
              && at[p] < |w.calls| && w.calls[at[p]].index == p + 1
              && SameEntry(w.nodes[a].log[p], Entry(w.calls[at[p]].term, w.calls[at[p]].value))
  {
    var n, w := s.nodes[a], MapWorld(Erase, s);
    forall p | 0 <= p < |n.log|
      ensures at[p] < |w.calls| && w.calls[at[p]].index == p + 1
      ensures SameEntry(w.nodes[a].log[p], Entry(w.calls[at[p]].term, w.calls[at[p]].value))
    {
      AcceptedCopy(md5, n, p, s.calls[at[p]]);
    }
  }

  lemma AcceptedCopy(md5: string -> Hash, n: Node<Tagged>, p: nat, c: Call<Tagged>)
    requires p < |n.log| && Form(md5, n.log[p].value) && Form(md5, c.value)
    requires Acceptance.AcceptedBy(MapCall(Identity, c), FullLog(MapNode(Identity, n))[p], p + 1)
    ensures c.index == p + 1 && SameEntry(MapEntry(Erase, n.log[p]), MapEntry(Erase, Entry(c.term, c.value)))
  {
    SameIdentity(md5, n.log[p], Entry(c.term, c.value));
  }

  // ---------------------------------------------------------------- internal checks

  /** Where the request overlaps the committed log, neither side has a payload. */
  lemma OverlapLight(md5: string -> Hash, s: Queue, h: State, link: Link)
    requires Inv(h) && Coupled(Core(s), h) && QueueOk(md5, s, h) && CanDeliver(s, link)
    requires s.nodes[link.follower].term <= s.rpcs[link].request.term
    ensures var n, r := s.nodes[link.follower], s.rpcs[link].request;
            n.commit <= |n.log| && n.commit <= Max(r.prevIndex, r.leaderCommit) && RpcLight(r) &&
            forall k :: r.prevIndex <= k < n.commit ==> n.log[k].value.data == ""
  {
    var f := link.follower;
    assert NodeLight(md5, s, h, h.commits, f) && CallLight(md5, s, h, h.commits, link);
    TailBefore(s, h, link);
    assert RpcOk(h, link, Core(s).rpcs[link]) && NodeOk(h, f, Core(s).nodes[f]) && NodeInv(h, f);
    assert RpcBound(Core(s), h, link);
    CommitBeforeAccept(Core(s), h, link, Core(s).rpcs[link].request);
  }

  /** No payload travels once its sender knows the message to be committed. */
  lemma RequestsLight(md5: string -> Hash, size: nat, worlds: seq<Shelf>, actions: seq<Action<Msg>>, i: nat, link: Link)
    requires IsQueueRun(md5, size, worlds, actions) && i < |worlds| && link in worlds[i].rpcs
    ensures var r := worlds[i].rpcs[link].request;
            forall k :: 0 <= k < |r.entries| && r.prevIndex + k + 1 <= r.leaderCommit ==> r.entries[k].value.data == ""
  {
    var tagged, hs := HistoryOfQueue(md5, size, worlds, actions);
    assert QueueOk(md5, tagged[i], hs[i]) && MapWorld(Erase, tagged[i]) == worlds[i];
    assert CallLight(md5, tagged[i], hs[i], hs[i].commits, link);
  }

  /** The checks inside the AppendEntries handler never fail, even when a retry has lost payloads
      that the first attempt still carried. */
  lemma QueueChecksHold(md5: string -> Hash, size: nat, worlds: seq<Shelf>, actions: seq<Action<Msg>>, i: nat,
                        link: Link)
    requires IsQueueRun(md5, size, worlds, actions) && i < |worlds| && CanDeliver(worlds[i], link)
    ensures AppendChecks(worlds[i].nodes[link.follower], worlds[i].rpcs[link].request)
  {
    var tagged, acts := TagRun(md5, size, worlds, actions);
    CoreRun(md5, size, tagged, acts);
    AppendChecksHold(size, Cores(tagged), CoreActions(acts), i, link);
    var hs := HistoryOfTagged(md5, size, worlds, tagged, acts);
    HistoryAt(md5, worlds, tagged, hs, i, link.follower);
    CheckedCopies(md5, tagged[i], hs[i], link);
  }

  lemma CheckedCopies(md5: string -> Hash, s: Queue, h: State, link: Link)
    requires Inv(h) && Coupled(Core(s), h) && QueueOk(md5, s, h) && CanDeliver(s, link)
    requires AppendChecks(Core(s).nodes[link.follower], Core(s).rpcs[link].request)
    ensures AppendChecks(MapNode(Erase, s.nodes[link.follower]), MapRequest(Erase, s.rpcs[link].request))
  {
    var n, r := s.nodes[link.follower], s.rpcs[link].request;
    if n.term <= r.term {
      OverlapLight(md5, s, h, link);
      SameCopies(n, r);
    }
  }

  /** Copies of one message, both without payload, are the same to the handler. */
  lemma SameCopies(n: Node<Tagged>, r: AppendRequest<Tagged>)
    requires AppendChecks(MapNode(Identity, n), MapRequest(Identity, r))
    requires n.commit <= |n.log| && n.commit <= Max(r.prevIndex, r.leaderCommit) && RpcLight(r)
    requires forall k :: r.prevIndex <= k < n.commit ==> n.log[k].value.data == ""
    ensures AppendChecks(MapNode(Erase, n), MapRequest(Erase, r))
  {
    if n.term <= r.term && LogMatches(n.log, r) {
      forall k | r.prevIndex <= k < n.commit && k - r.prevIndex < |r.entries|
        ensures SameThere(MapLog(Erase, n.log), MapRequest(Erase, r), k)
      {
        assert SameThere(MapLog(Identity, n.log), MapRequest(Identity, r), k);
      }
    }
  }

  /** A leader's own indexes are in range, and a rejection never arrives when a next index is 1. */
  lemma QueueLeaderChecksHold(md5: string -> Hash, size: nat, worlds: seq<Shelf>, actions: seq<Action<Msg>>, i: nat,
                              l: nat)
    requires IsQueueRun(md5, size, worlds, actions) && i < |worlds|
    requires l < |worlds[i].nodes| && worlds[i].nodes[l].role == Leader
    ensures var s := worlds[i]; var n := s.nodes[l];
            Leads(s, l) && n.nextIndex[l] == |n.log| + |n.pending| + 1 && n.commit <= |n.log| &&
            (forall f :: 0 <= f < |s.nodes| ==> 1 <= n.nextIndex[f] <= n.nextIndex[l]) &&
            (n.pending == [] ==> forall f :: 0 <= f < |s.nodes| ==> n.nextIndex[f] - 1 <= |n.log|) &&
            (forall f :: 0 <= f < |s.nodes| && CanReturn(s, Link(l, n.term, f)) ==>
               var rpc := s.rpcs[Link(l, n.term, f)];
               !rpc.reply.success && rpc.reply.term <= n.term ==> n.nextIndex[f] >= 2)
  {
    var tagged, acts := TagRun(md5, size, worlds, actions);
    CoreRun(md5, size, tagged, acts);
    assert MapWorld(Erase, tagged[i]) == worlds[i];
    LeaderChecksHold(size, Cores(tagged), CoreActions(acts), i, l);
    var s, core := worlds[i], Cores(tagged)[i];
    forall f | 0 <= f < |s.nodes| && CanReturn(s, Link(l, s.nodes[l].term, f))
      ensures CanReturn(core, Link(l, core.nodes[l].term, f))
    {}
  }

  /** An Append that wakes in its own term wakes at a leader. */
  lemma QueueWakeChecksHold(md5: string -> Hash, size: nat, worlds: seq<Shelf>, actions: seq<Action<Msg>>, i: nat,
                            id: nat)
    requires IsQueueRun(md5, size, worlds, actions) && i < |worlds| && CanWake(worlds[i], id)
    ensures var c := worlds[i].calls[id]; var n := worlds[i].nodes[c.node];
            n.term == c.term ==> n.role == Leader && c.phase.result.Some?
  {
    var tagged, acts := TagRun(md5, size, worlds, actions);
    CoreRun(md5, size, tagged, acts);
    assert MapWorld(Erase, tagged[i]) == worlds[i];
    WakeChecksHold(size, Cores(tagged), CoreActions(acts), i, id);
  }
}
