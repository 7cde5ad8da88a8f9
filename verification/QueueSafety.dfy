/** What every run of a Metamorphosis cluster guarantees, about the messages as they are stored. */
module QueueSafety {
  import opened Entries
  import opened Replica
  import opened Cluster
  import opened Mapping
  import opened Consensus
  import opened Coupling
  import opened Metamorphosis
  import opened CommitBounds
  import opened QueueInv
  import opened QueueSteps
  import opened Safety

  /** Two copies of one entry: the payloads are equal, or one is missing. */
  predicate SameEntry(a: Entry<Msg>, b: Entry<Msg>) {
    a.term == b.term && a.value.producer == b.value.producer && a.value.hash == b.value.hash &&
    (a.value.data == b.value.data || a.value.data == "" || b.value.data == "")
  }

  ghost predicate SameEntries(a: seq<Entry<Msg>>, b: seq<Entry<Msg>>, k: nat) {
    k <= |a| && k <= |b| && forall j :: 0 <= j < k ==> SameEntry(a[j], b[j])
  }

  ghost predicate HoldsText(n: Node<Msg>, j: nat, e: Entry<Msg>, text: string)
    requires j >= 1
  {
    j <= |n.log| && n.log[j - 1] == Entry(e.term, Msg(e.value.producer, e.value.hash, text))
  }

  /** e is a copy of the entry at index j, whose text a majority has in its persistent logs. */
  ghost predicate Preserved(md5: string -> Hash, s: Shelf, j: nat, e: Entry<Msg>, text: string)
    requires j >= 1
  {
    text != "" && md5(text) == e.value.hash && (e.value.data == "" || e.value.data == text) &&
    exists q :: IsQuorum(|s.nodes|, q) && forall n :: n in q ==> HoldsText(s.nodes[n], j, e, text)
  }

  // ---------------------------------------------------------------- runs have histories

  function Cores(tagged: seq<Queue>): (r: seq<Net>)
    ensures |r| == |tagged| && forall i :: 0 <= i < |tagged| ==> r[i] == Core(tagged[i])
  {
    seq(|tagged|, i requires 0 <= i < |tagged| => Core(tagged[i]))
  }

  function CoreActions(acts: seq<Action<Tagged>>): (r: seq<Action<Value>>)
    ensures |r| == |acts| && forall i :: 0 <= i < |acts| ==> r[i] == MapAction(Identity, acts[i])
  {
    seq(|acts|, i requires 0 <= i < |acts| => MapAction(Identity, acts[i]))
  }

  lemma CoreRun(md5: string -> Hash, size: nat, tagged: seq<Queue>, acts: seq<Action<Tagged>>)
    requires IsTaggedRun(md5, size, tagged, acts)
    ensures IsRun(size, Cores(tagged), CoreActions(acts))
  {
    MapInit(Identity, size);
    forall i | 0 <= i < |acts|
      ensures Enabled(Cores(tagged)[i], CoreActions(acts)[i]) &&
              Cores(tagged)[i + 1] == Next(Cores(tagged)[i], CoreActions(acts)[i])
    {
      assert TaggedStep(md5, tagged[i], acts[i], tagged[i + 1]);
      CoreStep(tagged[i], acts[i]);
    }
  }

  ghost predicate QueueHistory(md5: string -> Hash, worlds: seq<Shelf>, tagged: seq<Queue>, hs: seq<State>) {
    && |tagged| == |worlds| && IsHistory(Cores(tagged), hs)
    && (forall i :: 0 <= i < |worlds| ==> MapWorld(Erase, tagged[i]) == worlds[i])
    && (forall i {:trigger QueueOk(md5, tagged[i], hs[i])} :: 0 <= i < |worlds| ==> QueueOk(md5, tagged[i], hs[i]))
  }

  lemma {:induction false} QueueKept(md5: string -> Hash, size: nat, tagged: seq<Queue>, acts: seq<Action<Tagged>>,
                                     hs: seq<State>, i: nat)
    requires IsTaggedRun(md5, size, tagged, acts) && IsHistory(Cores(tagged), hs) && i < |tagged|
    ensures QueueOk(md5, tagged[i], hs[i])
    decreases i
  {
    assert Inv(hs[i]);
    if i > 0 {
      var j := i - 1;
      QueueKept(md5, size, tagged, acts, hs, j);
      assert TaggedStep(md5, tagged[j], acts[j], tagged[j + 1]);
      assert Inv(hs[j]) && Evolves(hs[j], hs[i]);
      assert Grows(Cores(tagged)[j], Cores(tagged)[j + 1], hs[j], hs[j + 1]);
      QueueStepKeeps(md5, tagged[j], acts[j], tagged[i], hs[j], hs[i]);
    } else {
      BlankQueue(md5, size, hs[0]);
    }
  }

  lemma BlankQueue(md5: string -> Hash, size: nat, h: State)
    requires Blank(h) && |h.peers| == size
    ensures QueueOk(md5, Init(size), h)
  {
    var s: Queue := Init(size);
    forall i | 0 <= i < size ensures NodeLight(md5, s, h, h.commits, i) {}
    forall l | 0 <= l < size ensures LeaderBound(Core(s), h, l) {}
    assert forall c, j :: !DueBy(h, c, j);
  }

  lemma HistoryOfTagged(md5: string -> Hash, size: nat, worlds: seq<Shelf>, tagged: seq<Queue>,
                        acts: seq<Action<Tagged>>)
      returns (hs: seq<State>)
    requires IsTaggedRun(md5, size, tagged, acts) && |tagged| == |worlds|
    requires forall i :: 0 <= i < |worlds| ==> MapWorld(Erase, tagged[i]) == worlds[i]
    ensures QueueHistory(md5, worlds, tagged, hs)
  {
    CoreRun(md5, size, tagged, acts);
    hs := RunHistory(size, Cores(tagged), CoreActions(acts));
    forall i | 0 <= i < |worlds| ensures QueueOk(md5, tagged[i], hs[i]) {
      QueueKept(md5, size, tagged, acts, hs, i);
    }
  }

  lemma HistoryOfQueue(md5: string -> Hash, size: nat, worlds: seq<Shelf>, actions: seq<Action<Msg>>)
      returns (tagged: seq<Queue>, hs: seq<State>)
    requires IsQueueRun(md5, size, worlds, actions)
    ensures QueueHistory(md5, worlds, tagged, hs)
  {
    var acts;
    tagged, acts := TagRun(md5, size, worlds, actions);
    hs := HistoryOfTagged(md5, size, worlds, tagged, acts);
  }

  lemma HistoryAt(md5: string -> Hash, worlds: seq<Shelf>, tagged: seq<Queue>, hs: seq<State>, i: nat, a: nat)
    requires QueueHistory(md5, worlds, tagged, hs) && i < |worlds| && a < |worlds[i].nodes|
    ensures MapWorld(Erase, tagged[i]) == worlds[i] && QueueOk(md5, tagged[i], hs[i])
    ensures worlds[i].nodes[a] == MapNode(Erase, tagged[i].nodes[a])
    ensures NodeLight(md5, tagged[i], hs[i], hs[i].commits, a)
    ensures Inv(hs[i]) && Coupled(Cores(tagged)[i], hs[i]) && |hs[i].peers| == |worlds[i].nodes|
    ensures NodeOk(hs[i], a, MapNode(Identity, tagged[i].nodes[a])) && NodeInv(hs[i], a)
  {
    assert QueueOk(md5, tagged[i], hs[i]);
    HistoryNode(Cores(tagged), hs, i, a);
  }

  lemma FormsAt(md5: string -> Hash, worlds: seq<Shelf>, tagged: seq<Queue>, hs: seq<State>, i: nat, f: nat)
    requires QueueHistory(md5, worlds, tagged, hs) && i < |worlds| && f < |worlds[i].nodes|
    ensures worlds[i].nodes[f] == MapNode(Erase, tagged[i].nodes[f]) && NodeForms(md5, tagged[i].nodes[f])
    ensures f < |Cores(tagged)[i].nodes| && Cores(tagged)[i].nodes[f] == MapNode(Identity, tagged[i].nodes[f])
    ensures worlds[i].nodes[f].commit <= |worlds[i].nodes[f].log|
  {
    HistoryAt(md5, worlds, tagged, hs, i, f);
  }

  /** Copies that stand for the same message. */
  lemma SameIdentity(md5: string -> Hash, x: Entry<Tagged>, y: Entry<Tagged>)
    requires Form(md5, x.value) && Form(md5, y.value) && MapEntry(Identity, x) == MapEntry(Identity, y)
    ensures SameEntry(MapEntry(Erase, x), MapEntry(Erase, y))
  {}

  lemma SameIdentities(md5: string -> Hash, x: TaggedLog, y: TaggedLog, k: nat)
    requires forall j :: 0 <= j < |x| ==> Form(md5, x[j].value)
    requires forall j :: 0 <= j < |y| ==> Form(md5, y[j].value)
    requires Agree(Ids(x), Ids(y), k)
    ensures SameEntries(MapLog(Erase, x), MapLog(Erase, y), k)
  {
    forall j | 0 <= j < k ensures SameEntry(MapEntry(Erase, x[j]), MapEntry(Erase, y[j])) {
      assert Ids(x)[j] == Ids(y)[j];
      SameIdentity(md5, x[j], y[j]);
    }
  }

  function FullTagged(n: Node<Tagged>): TaggedLog { if n.role == Leader then n.log + n.pending else n.log }

  lemma FullTaggedLog(md5: string -> Hash, n: Node<Tagged>)
    requires NodeForms(md5, n)
    ensures FullLog(MapNode(Erase, n)) == MapLog(Erase, FullTagged(n))
    ensures FullLog(MapNode(Identity, n)) == Ids(FullTagged(n))
    ensures forall j :: 0 <= j < |FullTagged(n)| ==> Form(md5, FullTagged(n)[j].value)
  {
    MapConcat(Erase, n.log, n.pending);
    MapConcat(Identity, n.log, n.pending);
  }

  /** At most one node ever leads a term. */
  lemma QueueElectionSafety(md5: string -> Hash, size: nat, worlds: seq<Shelf>, actions: seq<Action<Msg>>,
                            i: nat, j: nat, a: nat, b: nat)
    requires IsQueueRun(md5, size, worlds, actions) && i < |worlds| && j < |worlds|
    requires a < |worlds[i].nodes| && b < |worlds[j].nodes|
    requires worlds[i].nodes[a].role == Leader && worlds[j].nodes[b].role == Leader
    requires worlds[i].nodes[a].term == worlds[j].nodes[b].term
    ensures a == b
  {
    var tagged, acts := TagRun(md5, size, worlds, actions);
    CoreRun(md5, size, tagged, acts);
    assert MapWorld(Erase, tagged[i]) == worlds[i] && MapWorld(Erase, tagged[j]) == worlds[j];
    ElectionSafety(size, Cores(tagged), CoreActions(acts), i, j, a, b);
  }

  // ---------------------------------------------------------------- logs

  /** Log matching: entries of equal index and term sit on logs that are equal in term, producer
      and hash, and in payload wherever both have one. */
  lemma QueueLogMatching(md5: string -> Hash, size: nat, worlds: seq<Shelf>, actions: seq<Action<Msg>>,
                         i: nat, j: nat, a: nat, b: nat, q: nat)
    requires IsQueueRun(md5, size, worlds, actions) && i < |worlds| && j < |worlds|
    requires a < |worlds[i].nodes| && b < |worlds[j].nodes|
    requires var x, y := FullLog(worlds[i].nodes[a]), FullLog(worlds[j].nodes[b]);
             1 <= q <= |x| && q <= |y| && x[q - 1].term == y[q - 1].term
    ensures SameEntries(FullLog(worlds[i].nodes[a]), FullLog(worlds[j].nodes[b]), q)
  {
    var tagged, hs := HistoryOfQueue(md5, size, worlds, actions);
    HistoryAt(md5, worlds, tagged, hs, i, a);
    HistoryAt(md5, worlds, tagged, hs, j, b);
    var n, m := tagged[i].nodes[a], tagged[j].nodes[b];
    FullTaggedLog(md5, n);
    FullTaggedLog(md5, m);
    FullLogSound(Cores(tagged), hs, i, Max(i, j), a);
    FullLogSound(Cores(tagged), hs, j, Max(i, j), b);
    MatchingLogs(hs[Max(i, j)], Ids(FullTagged(n)), Ids(FullTagged(m)), q);
    SameIdentities(md5, FullTagged(n), FullTagged(m), q);
  }

  /** Any two nodes, at any two times, agree on what both have committed. */
  lemma QueueAgreement(md5: string -> Hash, size: nat, worlds: seq<Shelf>, actions: seq<Action<Msg>>,
                       i: nat, j: nat, a: nat, b: nat)
    requires IsQueueRun(md5, size, worlds, actions) && i < |worlds| && j < |worlds|
    requires a < |worlds[i].nodes| && b < |worlds[j].nodes|
    requires worlds[i].nodes[a].commit <= worlds[j].nodes[b].commit
    ensures SameEntries(worlds[i].nodes[a].log, worlds[j].nodes[b].log, worlds[i].nodes[a].commit)
    ensures worlds[j].nodes[b].commit <= |worlds[j].nodes[b].log|
  {
    var tagged, hs := HistoryOfQueue(md5, size, worlds, actions);
    HistoryAt(md5, worlds, tagged, hs, i, a);
    HistoryAt(md5, worlds, tagged, hs, j, b);
    var n, m, k := tagged[i].nodes[a], tagged[j].nodes[b], Max(i, j);
    CommittedKnown(Cores(tagged), hs, i, k, a);
    CommittedKnown(Cores(tagged), hs, j, k, b);
    assert Inv(hs[k]);
    KnownAgree(hs[k], n.term, Ids(n.log), n.commit, m.term, Ids(m.log), m.commit);
    SameIdentities(md5, n.log, m.log, n.commit);
  }

  /** Leader completeness, although followers may be sent committed entries only: what any node has
      committed is in the log of every leader of a later term, and of every later leader of its own. */
  lemma QueueLeaderCompleteness(md5: string -> Hash, size: nat, worlds: seq<Shelf>, actions: seq<Action<Msg>>,
                                i: nat, j: nat, a: nat, l: nat)
    requires IsQueueRun(md5, size, worlds, actions) && i < |worlds| && j < |worlds|
    requires a < |worlds[i].nodes| && l < |worlds[j].nodes| && worlds[j].nodes[l].role == Leader
    requires worlds[i].nodes[a].term < worlds[j].nodes[l].term ||
             (worlds[i].nodes[a].term == worlds[j].nodes[l].term && i <= j)
    ensures SameEntries(worlds[i].nodes[a].log, FullLog(worlds[j].nodes[l]), worlds[i].nodes[a].commit)
  {
    var tagged, acts := TagRun(md5, size, worlds, actions);
    CoreRun(md5, size, tagged, acts);
    LeaderCompleteness(size, Cores(tagged), CoreActions(acts), i, j, a, l);
    var hs := HistoryOfTagged(md5, size, worlds, tagged, acts);
    HistoryAt(md5, worlds, tagged, hs, i, a);
    HistoryAt(md5, worlds, tagged, hs, j, l);
    var n, m := tagged[i].nodes[a], tagged[j].nodes[l];
    FullTaggedLog(md5, m);
    PrefixAgree(Ids(n.log), Ids(FullTagged(m)), n.commit);
    SameIdentities(md5, n.log, FullTagged(m), n.commit);
  }

  lemma PrefixAgree(a: Log, b: Log, k: nat)
    requires k <= |a| && a[..k] <= b
    ensures Agree(a, b, k)
  {
    forall j | 0 <= j < k ensures a[j] == b[j] { assert a[..k][j] == b[j]; }
  }

  // ---------------------------------------------------------------- payloads

  /** Where an entry is settled, a majority holds the payload of every copy of it. */
  lemma LeadPreserved(md5: string -> Hash, s: Queue, h: State, lead: Log, j: nat, e: Entry<Tagged>)
    requires Inv(h) && Coupled(Core(s), h) && QueueOk(md5, s, h) && 1 <= j <= |lead|
    requires Settled(h, h.commits, lead, j) && Form(md5, e.value) && MapEntry(Identity, e) == lead[j - 1]
    ensures Preserved(md5, MapWorld(Erase, s), j, MapEntry(Erase, e), e.value.text)
  {
    var c :| c in h.commits && SettledBy(h, c, lead, j);
    assert DueBy(h, c, j);
    var d, q :| DurableBy(s, h, j, d, q);
    forall n | n in q ensures HoldsText(MapWorld(Erase, s).nodes[n], j, MapEntry(Erase, e), e.value.text) {
      LeadCopy(md5, s, h, lead, j, e, c, d, n);
    }
  }

  lemma LeadCopy(md5: string -> Hash, s: Queue, h: State, lead: Log, j: nat, e: Entry<Tagged>, c: Commit, d: Commit,
                 n: nat)
    requires Inv(h) && Coupled(Core(s), h) && Light(md5, s, h, h.commits) && 1 <= j <= |lead| && n < |s.nodes|
    requires c in h.commits && SettledBy(h, c, lead, j) && MapEntry(Identity, e) == lead[j - 1]
    requires d in h.commits && j <= d.index && d.term in h.peers[n].acc && d.index <= h.peers[n].acc[d.term].low
    requires j <= |s.nodes[n].log| && Full(s.nodes[n].log[j - 1].value)
    ensures HoldsText(MapWorld(Erase, s).nodes[n], j, MapEntry(Erase, e), e.value.text)
  {
    assert NodeInv(h, n) && NodeOk(h, n, Core(s).nodes[n]) && NodeLight(md5, s, h, h.commits, n) && Chosen(h, d);
    ChosenAlive(h, d);
    assert Agree(h.peers[n].log, h.lead[d.term].log, d.index);
    ChosenAgree(h, c, d, j);
    assert Ids(s.nodes[n].log)[j - 1] == lead[j - 1];
  }

  /** Payload durability: an entry that any node has had below its commit index at any time i has one
      text, and that text is in the persistent logs of a majority at every time from then on, also
      when every node that knew of the commit has restarted since. */
  lemma PayloadDurable(md5: string -> Hash, size: nat, worlds: seq<Shelf>, actions: seq<Action<Msg>>, i: nat, a: nat,
                       j: nat)
      returns (text: string)
    requires IsQueueRun(md5, size, worlds, actions) && i < |worlds| && a < |worlds[i].nodes|
    requires 1 <= j <= worlds[i].nodes[a].commit
    ensures j <= |worlds[i].nodes[a].log|
    ensures forall k :: i <= k < |worlds| ==> Preserved(md5, worlds[k], j, worlds[i].nodes[a].log[j - 1], text)
  {
    var tagged, hs := HistoryOfQueue(md5, size, worlds, actions);
    FormsAt(md5, worlds, tagged, hs, i, a);
    text := tagged[i].nodes[a].log[j - 1].value.text;
    forall k | i <= k < |worlds| ensures Preserved(md5, worlds[k], j, worlds[i].nodes[a].log[j - 1], text) {
      DurableAt(md5, worlds, tagged, hs, i, k, a, j);
    }
  }

  lemma DurableAt(md5: string -> Hash, worlds: seq<Shelf>, tagged: seq<Queue>, hs: seq<State>, i: nat, k: nat, a: nat,
                  j: nat)
    requires QueueHistory(md5, worlds, tagged, hs) && i <= k < |worlds| && a < |worlds[i].nodes|
    requires 1 <= j <= worlds[i].nodes[a].commit <= |worlds[i].nodes[a].log|
    ensures Preserved(md5, worlds[k], j, worlds[i].nodes[a].log[j - 1], tagged[i].nodes[a].log[j - 1].value.text)
  {
    FormsAt(md5, worlds, tagged, hs, i, a);
    var n := tagged[i].nodes[a];
    CommittedKnown(Cores(tagged), hs, i, k, a);
    KnownSettled(hs[k], n.term, Ids(n.log), n.commit, j);
    assert Inv(hs[k]) && Coupled(Cores(tagged)[k], hs[k]) && QueueOk(md5, tagged[k], hs[k]);
    assert MapWorld(Erase, tagged[k]) == worlds[k];
    LeadPreserved(md5, tagged[k], hs[k], Ids(n.log), j, n.log[j - 1]);
  }

  /** A stored copy without payload is a copy of a committed entry: some leader has had it below its
      commit index, and a majority holds the payload. */
  lemma HashOnlyCommitted(md5: string -> Hash, size: nat, worlds: seq<Shelf>, actions: seq<Action<Msg>>, i: nat,
                          a: nat, j: nat)
      returns (text: string, t: nat, l: nat)
    requires IsQueueRun(md5, size, worlds, actions) && i < |worlds| && a < |worlds[i].nodes|
    requires 1 <= j <= |worlds[i].nodes[a].log| && worlds[i].nodes[a].log[j - 1].value.data == ""
    ensures Preserved(md5, worlds[i], j, worlds[i].nodes[a].log[j - 1], text)
    ensures t <= i && l < |worlds[t].nodes| && j <= worlds[t].nodes[l].commit
    ensures SameEntries(worlds[i].nodes[a].log, worlds[t].nodes[l].log, j)
  {
    var tagged, hs := HistoryOfQueue(md5, size, worlds, actions);
    HistoryAt(md5, worlds, tagged, hs, i, a);
    var n := tagged[i].nodes[a];
    assert Settled(hs[i], hs[i].commits, Ids(n.log), j);
    LeadPreserved(md5, tagged[i], hs[i], Ids(n.log), j, n.log[j - 1]);
    text := n.log[j - 1].value.text;
    t, l := SettledSeen(md5, worlds, tagged, hs, i, n.log, j);
  }

  lemma SettledCopy(md5: string -> Hash, worlds: seq<Shelf>, tagged: seq<Queue>, hs: seq<State>, i: nat, lead: Log,
                    j: nat)
      returns (t: nat, l: nat)
    requires QueueHistory(md5, worlds, tagged, hs) && i < |worlds| && 1 <= j <= |lead|
    requires Settled(hs[i], hs[i].commits, lead, j)
    ensures t <= i && l < |worlds[t].nodes| == |tagged[t].nodes| && j <= tagged[t].nodes[l].commit
    ensures MapNode(Erase, tagged[t].nodes[l]) == worlds[t].nodes[l] && NodeForms(md5, tagged[t].nodes[l])
    ensures tagged[t].nodes[l].commit <= |tagged[t].nodes[l].log| && Agree(lead, Ids(tagged[t].nodes[l].log), j)
  {
    var c :| c in hs[i].commits && SettledBy(hs[i], c, lead, j);
    t, l := CommitSeen(Cores(tagged), hs, i, c);
    HistoryAt(md5, worlds, tagged, hs, t, l);
    assert ReignEvolves(hs[t].lead[c.term], hs[i].lead[c.term]) by { assert Evolves(hs[t], hs[i]); }
  }

  lemma SettledSeen(md5: string -> Hash, worlds: seq<Shelf>, tagged: seq<Queue>, hs: seq<State>, i: nat,
                    log: TaggedLog, j: nat)
      returns (t: nat, l: nat)
    requires QueueHistory(md5, worlds, tagged, hs) && i < |worlds| && 1 <= j <= |log|
    requires Settled(hs[i], hs[i].commits, Ids(log), j) && forall k :: 0 <= k < |log| ==> Form(md5, log[k].value)
    ensures t <= i && l < |worlds[t].nodes| && j <= worlds[t].nodes[l].commit
    ensures SameEntries(MapLog(Erase, log), worlds[t].nodes[l].log, j)
  {
    t, l := SettledCopy(md5, worlds, tagged, hs, i, Ids(log), j);
    SameIdentities(md5, log, tagged[t].nodes[l].log, j);
  }

  /** An entry in flight without payload is a copy of a committed entry. */
  lemma HashOnlyInFlight(md5: string -> Hash, size: nat, worlds: seq<Shelf>, actions: seq<Action<Msg>>,
                         i: nat, link: Link, k: nat, j: nat) returns (text: string, t: nat, l: nat)
    requires IsQueueRun(md5, size, worlds, actions) && i < |worlds| && link in worlds[i].rpcs
    requires k < |worlds[i].rpcs[link].request.entries| && worlds[i].rpcs[link].request.entries[k].value.data == ""
    requires j == worlds[i].rpcs[link].request.prevIndex + k + 1
    ensures Preserved(md5, worlds[i], j, worlds[i].rpcs[link].request.entries[k], text)
    ensures t <= i && l < |worlds[t].nodes| && j <= worlds[t].nodes[l].commit <= |worlds[t].nodes[l].log|
    ensures SameEntry(worlds[i].rpcs[link].request.entries[k], worlds[t].nodes[l].log[j - 1])
  {
    var tagged, hs := HistoryOfQueue(md5, size, worlds, actions);
    assert QueueOk(md5, tagged[i], hs[i]) && Inv(hs[i]) && MapWorld(Erase, tagged[i]) == worlds[i];
    LightCall(md5, tagged[i], hs[i], link, k, j);
    var e := tagged[i].rpcs[link].request.entries[k];
    text := e.value.text;
    t, l := SettledEntrySeen(md5, worlds, tagged, hs, i, hs[i].lead[link.term].log, j, e);
  }

  lemma SettledEntrySeen(md5: string -> Hash, worlds: seq<Shelf>, tagged: seq<Queue>, hs: seq<State>, i: nat,
                         lead: Log, j: nat, e: Entry<Tagged>) returns (t: nat, l: nat)
    requires QueueHistory(md5, worlds, tagged, hs) && i < |worlds| && 1 <= j <= |lead|
    requires Settled(hs[i], hs[i].commits, lead, j) && Form(md5, e.value) && MapEntry(Identity, e) == lead[j - 1]
    ensures t <= i && l < |worlds[t].nodes| && j <= worlds[t].nodes[l].commit <= |worlds[t].nodes[l].log|
    ensures SameEntry(MapEntry(Erase, e), worlds[t].nodes[l].log[j - 1])
  {
    t, l := SettledCopy(md5, worlds, tagged, hs, i, lead, j);
    SameIdentity(md5, e, tagged[t].nodes[l].log[j - 1]);
  }

  lemma LightCall(md5: string -> Hash, s: Queue, h: State, link: Link, k: nat, j: nat)
    requires Inv(h) && Coupled(Core(s), h) && QueueOk(md5, s, h) && link in s.rpcs
    requires k < |s.rpcs[link].request.entries| && s.rpcs[link].request.entries[k].value.data == ""
    requires j == s.rpcs[link].request.prevIndex + k + 1
    ensures var e := s.rpcs[link].request.entries[k];
            Preserved(md5, MapWorld(Erase, s), j, MapEntry(Erase, e), e.value.text)
    ensures link.term in h.lead && j <= |h.lead[link.term].log| && Settled(h, h.commits, h.lead[link.term].log, j)
    ensures Form(md5, s.rpcs[link].request.entries[k].value)
    ensures MapEntry(Identity, s.rpcs[link].request.entries[k]) == h.lead[link.term].log[j - 1]
  {
    assert CallLight(md5, s, h, h.commits, link) && RpcOk(h, link, Core(s).rpcs[link]);
    var r := s.rpcs[link].request;
    LightEntry(md5, h, link, r, k, j);
    LeadPreserved(md5, s, h, h.lead[link.term].log, j, r.entries[k]);
  }

  lemma LightEntry(md5: string -> Hash, h: State, link: Link, r: AppendRequest<Tagged>, k: nat, j: nat)
    requires RpcForms(md5, r) && RpcSettled(h, h.commits, link.term, r) && RequestOk(h, link, MapRequest(Identity, r))
    requires k < |r.entries| && r.entries[k].value.data == "" && j == r.prevIndex + k + 1
    ensures j <= |h.lead[link.term].log| && Settled(h, h.commits, h.lead[link.term].log, j)
    ensures Form(md5, r.entries[k].value) && MapEntry(Identity, r.entries[k]) == h.lead[link.term].log[j - 1]
  {
    assert MapRequest(Identity, r).entries[k] == MapEntry(Identity, r.entries[k]);
  }
}
