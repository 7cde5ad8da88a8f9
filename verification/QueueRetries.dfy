/** What accepting a request does to messages a follower already holds, in every queue run. */
module QueueRetries {
  import opened Entries
  import opened Replica
  import opened Cluster
  import opened Mapping
  import opened Metamorphosis
  import opened Consensus
  import opened QueueInv
  import opened Safety
  import opened QueueSafety
  import Moves

  /** Step i delivers the call on the link, and the follower accepts it. */
  ghost predicate AcceptsAt<V>(worlds: seq<World<V>>, actions: seq<Action<V>>, i: nat, link: Link) {
    i < |actions| && i + 1 < |worlds| && actions[i] == Deliver(link) && link in worlds[i + 1].rpcs &&
    worlds[i + 1].rpcs[link].Answered? && worlds[i + 1].rpcs[link].reply.success
  }

  /** Node f accepted a request of term t at step k. */
  ghost predicate AcceptedInTerm(worlds: seq<Shelf>, actions: seq<Action<Msg>>, k: nat, f: nat, t: nat) {
    exists link :: AcceptsAt(worlds, actions, k, link) && link.follower == f && link.term == t
  }

  /** The entry at index j of the log is committed by term t: some node of a term up to t has, at
      some time, an entry of the same term at j below its commit index. */
  ghost predicate CommittedInTerm(worlds: seq<Shelf>, t: nat, log: seq<Entry<Msg>>, j: nat)
    requires 1 <= j <= |log|
  {
    exists i: nat, a: nat :: CommittedOn(worlds, i, a, t, log, j)
  }

  ghost predicate CommittedOn(worlds: seq<Shelf>, i: nat, a: nat, t: nat, log: seq<Entry<Msg>>, j: nat)
    requires 1 <= j <= |log|
  {
    i < |worlds| && a < |worlds[i].nodes| &&
    var n := worlds[i].nodes[a];
    n.term <= t && j <= n.commit <= |n.log| && n.log[j - 1].term == log[j - 1].term
  }

  /** The runs of stored and of remembered messages belong together. */
  ghost predicate Twins(md5: string -> Hash, size: nat, worlds: seq<Shelf>, actions: seq<Action<Msg>>,
                        tagged: seq<Queue>, acts: seq<Action<Tagged>>) {
    && IsTaggedRun(md5, size, tagged, acts) && |tagged| == |worlds| && |acts| == |actions|
    && (forall k :: 0 <= k < |worlds| ==> MapWorld(Erase, tagged[k]) == worlds[k])
    && (forall k :: 0 <= k < |actions| ==> acts[k] == MapAction(Tag, actions[k]))
  }

  lemma DeliveredCore(s: World<Tagged>, link: Link)
    requires CanDeliver(s, link) && Delivered(s, link).rpcs[link].reply.success
    ensures Accepts(Core(s), Core(Delivered(s, link)), link)
  {
    MapDelivered(Identity, s, link);
  }

  lemma CoreAccepts(md5: string -> Hash, size: nat, worlds: seq<Shelf>, actions: seq<Action<Msg>>,
                    tagged: seq<Queue>, acts: seq<Action<Tagged>>, i: nat, link: Link)
    requires Twins(md5, size, worlds, actions, tagged, acts) && AcceptsAt(worlds, actions, i, link)
    ensures Accepts(Cores(tagged)[i], Cores(tagged)[i + 1], link)
  {
    assert TaggedStep(md5, tagged[i], acts[i], tagged[i + 1]);
    assert acts[i] == MapAction(Tag, actions[i]) && MapWorld(Erase, tagged[i + 1]) == worlds[i + 1];
    DeliveredCore(tagged[i], link);
  }

  /** The other way round: only a delivery answers a call. */
  lemma AcceptsInCore(md5: string -> Hash, size: nat, worlds: seq<Shelf>, actions: seq<Action<Msg>>,
                      tagged: seq<Queue>, acts: seq<Action<Tagged>>, i: nat, link: Link)
    requires Twins(md5, size, worlds, actions, tagged, acts) && i + 1 < |worlds|
    requires link in tagged[i].rpcs && tagged[i].rpcs[link].Sent?
    requires link in tagged[i + 1].rpcs && tagged[i + 1].rpcs[link].Answered? && tagged[i + 1].rpcs[link].reply.success
    ensures AcceptsAt(worlds, actions, i, link)
  {
    assert TaggedStep(md5, tagged[i], acts[i], tagged[i + 1]);
    Moves.AnsweredNow(tagged[i], acts[i], Strip, link);
    AnswerErased(tagged[i + 1], link);
    assert acts[i] == MapAction(Tag, actions[i]) && MapWorld(Erase, tagged[i + 1]) == worlds[i + 1];
  }

  lemma AnswerErased(s: Queue, link: Link)
    requires link in s.rpcs && s.rpcs[link].Answered?
    ensures var erased := MapWorld(Erase, s);
            link in erased.rpcs && erased.rpcs[link].Answered? && erased.rpcs[link].reply == s.rpcs[link].reply
  {}

  lemma NotAccepted(md5: string -> Hash, size: nat, worlds: seq<Shelf>, actions: seq<Action<Msg>>,
                    tagged: seq<Queue>, acts: seq<Action<Tagged>>, k: nat, f: nat, t: nat)
    requires Twins(md5, size, worlds, actions, tagged, acts) && !AcceptedInTerm(worlds, actions, k, f, t)
    ensures !AcceptedAt(Cores(tagged), k, f, t)
  {
    if k + 1 < |worlds| {
      forall link
        ensures !(Accepts(Cores(tagged)[k], Cores(tagged)[k + 1], link) && link.follower == f && link.term == t)
      {
        if Accepts(Cores(tagged)[k], Cores(tagged)[k + 1], link) {
          AcceptsInCore(md5, size, worlds, actions, tagged, acts, k, link);
        }
      }
    }
  }

  /** What is committed among the stored messages is committed among the remembered ones. */
  lemma CoreCommitted(worlds: seq<Shelf>, tagged: seq<Queue>, hs: seq<State>, i: nat, f: nat, t: nat, j: nat)
    requires IsHistory(Cores(tagged), hs) && |tagged| == |worlds| && i < |worlds| && f < |worlds[i].nodes|
    requires forall k :: 0 <= k < |worlds| ==> MapWorld(Erase, tagged[k]) == worlds[k]
    requires 1 <= j <= |worlds[i].nodes[f].log| && CommittedInTerm(worlds, t, worlds[i].nodes[f].log, j)
    ensures f < |Cores(tagged)[i].nodes| && CommittedBy(Cores(tagged), t, Cores(tagged)[i].nodes[f].log, j)
  {
    var k: nat, a: nat :| CommittedOn(worlds, k, a, t, worlds[i].nodes[f].log, j);
    var late := Max(i, k);
    SavedLogSound(Cores(tagged), hs, i, late, f);
    SavedLogSound(Cores(tagged), hs, k, late, a);
    MatchingLogs(hs[late], Cores(tagged)[i].nodes[f].log, Cores(tagged)[k].nodes[a].log, j);
    assert CommittedThere(Cores(tagged), k, a, t, Cores(tagged)[i].nodes[f].log, j);
  }

  lemma SavedLogSound(worlds: seq<World<Value>>, hs: seq<State>, i: nat, j: nat, a: nat)
    requires IsHistory(worlds, hs) && i <= j < |worlds| && a < |worlds[i].nodes|
    ensures Inv(hs[j]) && Sound(hs[j], worlds[i].nodes[a].log)
  {
    HistoryNode(worlds, hs, i, a);
    assert Inv(hs[i]) && Inv(hs[j]) && Evolves(hs[i], hs[j]);
    SoundStays(hs[i], hs[j], worlds[i].nodes[a].log);
  }

  /** The first request a follower accepts in a term starts above every message it holds that is
      committed by that term: however short the request, none of them is truncated. */
  lemma QueueFirstAcceptance(md5: string -> Hash, size: nat, worlds: seq<Shelf>, actions: seq<Action<Msg>>,
                             i: nat, link: Link, j: nat)
    requires IsQueueRun(md5, size, worlds, actions) && AcceptsAt(worlds, actions, i, link)
    requires forall k: nat :: k < i ==> !AcceptedInTerm(worlds, actions, k, link.follower, link.term)
    requires link.follower < |worlds[i].nodes| && 1 <= j <= |worlds[i].nodes[link.follower].log|
    requires CommittedInTerm(worlds, link.term, worlds[i].nodes[link.follower].log, j)
    ensures link in worlds[i].rpcs && j <= worlds[i].rpcs[link].request.prevIndex
  {
    var tagged, acts := TagRun(md5, size, worlds, actions);
    var hs := HistoryOfTagged(md5, size, worlds, tagged, acts);
    CoreCommitted(worlds, tagged, hs, i, link.follower, link.term, j);
    CoreAccepts(md5, size, worlds, actions, tagged, acts, i, link);
    forall k: nat | k < i ensures !AcceptedAt(Cores(tagged), k, link.follower, link.term) {
      NotAccepted(md5, size, worlds, actions, tagged, acts, k, link.follower, link.term);
    }
    CoreFirst(md5, size, tagged, acts, i, link, j);
    assert MapWorld(Erase, tagged[i]) == worlds[i];
  }

  lemma CoreFirst(md5: string -> Hash, size: nat, tagged: seq<Queue>, acts: seq<Action<Tagged>>, i: nat, link: Link,
                  j: nat)
    requires IsTaggedRun(md5, size, tagged, acts) && i + 1 < |tagged|
    requires Accepts(Cores(tagged)[i], Cores(tagged)[i + 1], link) && j <= |Cores(tagged)[i].nodes[link.follower].log|
    requires CommittedBy(Cores(tagged), link.term, Cores(tagged)[i].nodes[link.follower].log, j)
    requires forall k: nat :: k < i ==> !AcceptedAt(Cores(tagged), k, link.follower, link.term)
    ensures link in tagged[i].rpcs && j <= tagged[i].rpcs[link].request.prevIndex
  {
    CoreRun(md5, size, tagged, acts);
    FirstAcceptance(size, Cores(tagged), CoreActions(acts), i, link, j);
  }

  lemma AcceptsThere(md5: string -> Hash, size: nat, worlds: seq<Shelf>, actions: seq<Action<Msg>>, i: nat, link: Link)
    requires IsQueueRun(md5, size, worlds, actions) && AcceptsAt(worlds, actions, i, link)
    ensures Accepts(worlds[i], worlds[i + 1], link)
  {
    assert QueueStep(md5, worlds[i], actions[i], worlds[i + 1]);
  }

  ghost predicate KeepsExactly(log: seq<Entry<Msg>>, commit: nat, r: AppendRequest<Msg>, log': seq<Entry<Msg>>, j: nat)
    requires 1 <= j <= |log|
  {
    && (SameEntries(log, log', j) <==> j <= Max(r.prevIndex, commit) || Carries(r, log, j))
    && (j <= |log'| && log'[j - 1] == log[j - 1] <==>
        j <= Max(r.prevIndex, commit) ||
        (Carries(r, log, j) && r.entries[j - 1 - r.prevIndex].value.data == log[j - 1].value.data))
  }

  /** Exactly when an accepted request leaves the follower's first j messages in place, committed or
      not: if they lie below the previous or the follower's commit index, or the request carries an
      entry of the same term for the last of them. The copy at j is the same as before, payload
      included, if and only if in the second case the request has the same payload. */
  lemma QueueAcceptKeeps(md5: string -> Hash, size: nat, worlds: seq<Shelf>, actions: seq<Action<Msg>>,
                         i: nat, link: Link, j: nat)
    requires IsQueueRun(md5, size, worlds, actions) && AcceptsAt(worlds, actions, i, link)
    requires link.follower < |worlds[i].nodes| && 1 <= j <= |worlds[i].nodes[link.follower].log|
    ensures link in worlds[i].rpcs && link.follower < |worlds[i + 1].nodes|
    ensures var n, n', r := worlds[i].nodes[link.follower], worlds[i + 1].nodes[link.follower],
                            worlds[i].rpcs[link].request;
            KeepsExactly(n.log, n.commit, r, n'.log, j)
  {
    AcceptsThere(md5, size, worlds, actions, i, link);
    Moves.AcceptedNode(worlds[i], worlds[i + 1], link);
    QueueKeepsAt(md5, size, worlds, actions, i, link.follower, worlds[i].rpcs[link].request, j);
  }

  lemma QueueKeepsAt(md5: string -> Hash, size: nat, worlds: seq<Shelf>, actions: seq<Action<Msg>>,
                     i: nat, f: nat, r: AppendRequest<Msg>, j: nat)
    requires IsQueueRun(md5, size, worlds, actions) && i + 1 < |worlds| && f < |worlds[i].nodes|
    requires f < |worlds[i + 1].nodes|
    requires r.prevIndex <= |worlds[i].nodes[f].log| && 1 <= j <= |worlds[i].nodes[f].log|
    requires worlds[i + 1].nodes[f].log == Stored(worlds[i].nodes[f].log, worlds[i].nodes[f].commit, r)
    ensures var n, n' := worlds[i].nodes[f], worlds[i + 1].nodes[f];
            KeepsExactly(n.log, n.commit, r, n'.log, j)
  {
    var n := worlds[i].nodes[f];
    QueueAgreement(md5, size, worlds, actions, i, i, f, f);
    StoredKeeps(n.log, n.commit, r, j);
    StoredCopies(n.log, n.commit, r, j);
    if j > Max(r.prevIndex, n.commit) && Carries(r, n.log, j) {
      QueueOwnLogsMatch(md5, size, worlds, actions, i, f, j);
    }
  }

  lemma QueueOwnLogsMatch(md5: string -> Hash, size: nat, worlds: seq<Shelf>, actions: seq<Action<Msg>>, i: nat,
                          f: nat, j: nat)
    requires IsQueueRun(md5, size, worlds, actions) && i + 1 < |worlds| && f < |worlds[i].nodes|
    requires f < |worlds[i + 1].nodes|
    requires 1 <= j <= |worlds[i].nodes[f].log| && j <= |worlds[i + 1].nodes[f].log|
    requires worlds[i].nodes[f].log[j - 1].term == worlds[i + 1].nodes[f].log[j - 1].term
    ensures SameEntries(worlds[i].nodes[f].log, worlds[i + 1].nodes[f].log, j)
  {
    QueueLogMatching(md5, size, worlds, actions, i, i + 1, f, f, j);
    var x, y := worlds[i].nodes[f], worlds[i + 1].nodes[f];
    forall k | 0 <= k < j ensures SameEntry(x.log[k], y.log[k]) {
      assert SameEntry(FullLog(x)[k], FullLog(y)[k]);
    }
  }

  /** What is left at index j of a log that has accepted the request. */
  lemma StoredCopies(log: seq<Entry<Msg>>, commit: nat, r: AppendRequest<Msg>, j: nat)
    requires commit <= |log| && r.prevIndex <= |log| && 1 <= j <= |log|
    ensures var log', keep := Stored(log, commit, r), Max(r.prevIndex, commit);
            && (j <= keep ==> SameEntries(log, log', j) && log'[j - 1] == log[j - 1])
            && (j > keep && j <= |log'| ==>
                j <= r.prevIndex + |r.entries| && log'[j - 1] == r.entries[j - 1 - r.prevIndex])
  {}

  /** Exactly when an accepted request leaves the follower with a committed message it held: if the
      request reaches that far, or the follower knows the message to be committed. */
  lemma QueueAcceptKeepsCommitted(md5: string -> Hash, size: nat, worlds: seq<Shelf>, actions: seq<Action<Msg>>,
                                  i: nat, link: Link, j: nat)
    requires IsQueueRun(md5, size, worlds, actions) && AcceptsAt(worlds, actions, i, link)
    requires link.follower < |worlds[i].nodes| && 1 <= j <= |worlds[i].nodes[link.follower].log|
    requires CommittedInTerm(worlds, link.term, worlds[i].nodes[link.follower].log, j)
    ensures link in worlds[i].rpcs && link.follower < |worlds[i + 1].nodes|
    ensures var n, n', r := worlds[i].nodes[link.follower], worlds[i + 1].nodes[link.follower],
                            worlds[i].rpcs[link].request;
            SameEntries(n.log, n'.log, j) <==> j <= Max(r.prevIndex + |r.entries|, n.commit)
  {
    var tagged, acts := TagRun(md5, size, worlds, actions);
    var hs := HistoryOfTagged(md5, size, worlds, tagged, acts);
    CoreCommitted(worlds, tagged, hs, i, link.follower, link.term, j);
    CoreAccepts(md5, size, worlds, actions, tagged, acts, i, link);
    CoreRun(md5, size, tagged, acts);
    CoreKeeps(size, Cores(tagged), CoreActions(acts), i, link, j);
    Kept(md5, worlds, tagged, hs, i, link, j);
  }

  /** The same of the remembered messages. */
  ghost predicate KeptInCore(s: World<Value>, s': World<Value>, link: Link, j: nat) {
    && link in s.rpcs && link.follower < |s.nodes| && link.follower < |s'.nodes|
    && var n, n', r := s.nodes[link.follower], s'.nodes[link.follower], s.rpcs[link].request;
       && 1 <= j <= |n.log| && |n'.log| == Max(r.prevIndex + |r.entries|, n.commit)
       && (n.log[..j] <= n'.log <==> j <= |n'.log|)
  }

  lemma CoreKeeps(size: nat, cores: seq<World<Value>>, actions: seq<Action<Value>>, i: nat, link: Link, j: nat)
    requires IsRun(size, cores, actions) && i + 1 < |cores| && Accepts(cores[i], cores[i + 1], link)
    requires 1 <= j <= |cores[i].nodes[link.follower].log|
    requires CommittedBy(cores, link.term, cores[i].nodes[link.follower].log, j)
    ensures KeptInCore(cores[i], cores[i + 1], link, j)
  {
    AcceptKeepsCommitted(size, cores, actions, i, link, j);
    var hs := RunHistory(size, cores, actions);
    HistoryNode(cores, hs, i, link.follower);
    AcceptedLength(cores[i], cores[i + 1], link);
  }

  lemma Kept(md5: string -> Hash, worlds: seq<Shelf>, tagged: seq<Queue>, hs: seq<State>, i: nat, link: Link, j: nat)
    requires QueueHistory(md5, worlds, tagged, hs) && i + 1 < |worlds|
    requires KeptInCore(MapWorld(Identity, tagged[i]), MapWorld(Identity, tagged[i + 1]), link, j)
    ensures link in worlds[i].rpcs && link.follower < |worlds[i].nodes| && link.follower < |worlds[i + 1].nodes|
    ensures var n, n', r := worlds[i].nodes[link.follower], worlds[i + 1].nodes[link.follower],
                            worlds[i].rpcs[link].request;
            SameEntries(n.log, n'.log, j) <==> j <= Max(r.prevIndex + |r.entries|, n.commit)
  {
    FormsAt(md5, worlds, tagged, hs, i, link.follower);
    FormsAt(md5, worlds, tagged, hs, i + 1, link.follower);
    KeptErased(md5, tagged[i], tagged[i + 1], link, j);
    assert MapWorld(Erase, tagged[i]) == worlds[i] && MapWorld(Erase, tagged[i + 1]) == worlds[i + 1];
  }

  lemma KeptErased(md5: string -> Hash, s: Queue, s': Queue, link: Link, j: nat)
    requires KeptInCore(MapWorld(Identity, s), MapWorld(Identity, s'), link, j)
    requires NodeForms(md5, s.nodes[link.follower]) && NodeForms(md5, s'.nodes[link.follower])
    ensures link in s.rpcs && link.follower < |s.nodes| && link.follower < |s'.nodes|
    ensures var n, n', r := s.nodes[link.follower], s'.nodes[link.follower], s.rpcs[link].request;
            SameEntries(MapLog(Erase, n.log), MapLog(Erase, n'.log), j) <==>
            j <= Max(r.prevIndex + |r.entries|, n.commit)
  {
    KeepsIff(md5, s.nodes[link.follower], s'.nodes[link.follower], j);
  }

  lemma StoredLength<V>(log: seq<Entry<V>>, commit: nat, r: AppendRequest<V>)
    requires commit <= |log| && r.prevIndex <= |log|
    ensures |Stored(log, commit, r)| == Max(r.prevIndex + |r.entries|, commit)
  {}

  lemma AcceptedLength<V>(s: World<V>, s': World<V>, link: Link)
    requires Accepts(s, s', link) && s.nodes[link.follower].commit <= |s.nodes[link.follower].log|
    ensures |s'.nodes| == |s.nodes|
    ensures var n, r := s.nodes[link.follower], s.rpcs[link].request;
            |s'.nodes[link.follower].log| == Max(r.prevIndex + |r.entries|, n.commit)
  {
    Moves.AcceptedNode(s, s', link);
    StoredLength(s.nodes[link.follower].log, s.nodes[link.follower].commit, s.rpcs[link].request);
  }

  lemma KeepsIff(md5: string -> Hash, n: Node<Tagged>, n': Node<Tagged>, j: nat)
    requires NodeForms(md5, n) && NodeForms(md5, n') && 1 <= j <= |n.log|
    requires Ids(n.log)[..j] <= Ids(n'.log) <==> j <= |n'.log|
    ensures SameEntries(MapLog(Erase, n.log), MapLog(Erase, n'.log), j) <==> j <= |n'.log|
  {
    if j <= |n'.log| {
      PrefixAgree(Ids(n.log), Ids(n'.log), j);
      SameIdentities(md5, n.log, n'.log, j);
    }
  }
}
