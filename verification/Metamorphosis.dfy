/** The Metamorphosis cluster: Raft in which entries known to be committed travel without payload,
    and a follower may be sent committed entries only.

    Which followers are main nodes, and whether they are alive, decides in the program between the
    two kinds of request; here a leader may choose either for any follower at any time.
 */
module Metamorphosis {
  import opened Entries
  import opened Replica
  import opened Cluster
  import opened Mapping

  /** A queue message as stored: an empty payload means only its hash is here. */
  datatype Msg = Msg(producer: nat, hash: Hash, data: string)

  type Shelf = World<Msg>

  function StripMsg(m: Msg): Msg { m.(data := "") }

  /** Entries up to the commit index lose their payload; first is the index of the first entry. */
  function Lighten<V>(entries: seq<Entry<V>>, first: nat, commit: nat, strip: V -> V): (r: seq<Entry<V>>)
    ensures |r| == |entries|
    ensures forall k :: 0 <= k < |entries| ==>
              r[k] == if first + k <= commit then Entry(entries[k].term, strip(entries[k].value)) else entries[k]
  {
    seq(|entries|, k requires 0 <= k < |entries| =>
      if first + k <= commit then Entry(entries[k].term, strip(entries[k].value)) else entries[k])
  }

  function LightRequest<V>(n: Node<V>, me: nat, next: nat, last: nat, strip: V -> V): AppendRequest<V>
    requires 1 <= next <= last + 1 && next - 1 <= |n.log| && last <= |n.log| + |n.pending|
  {
    var r := MakeRequest(n, me, next, last);
    r.(entries := Lighten(r.entries, next, n.commit, strip))
  }

  /** A request carries the whole suffix, or the committed part of it. */
  predicate CanShip<V>(s: World<V>, i: nat, f: nat, last: nat) {
    CanSend(s, i, f, last) &&
    var n := s.nodes[i];
    last == |n.log| + |n.pending| || last == Max(n.commit, n.nextIndex[f] - 1)
  }

  function Shipped<V>(s: World<V>, i: nat, f: nat, last: nat, strip: V -> V): World<V>
    requires CanSend(s, i, f, last)
  {
    var n := s.nodes[i];
    s.(rpcs := s.rpcs[Link(i, n.term, f) := Sent(LightRequest(n, i, n.nextIndex[f], last, strip))],
       now := s.now + 1)
  }

  predicate Possible<V>(s: World<V>, a: Action<V>) {
    Enabled(s, a) && (a.Send? ==> CanShip(s, a.node, a.follower, a.last))
  }

  function After<V>(s: World<V>, a: Action<V>, strip: V -> V): World<V>
    requires Possible(s, a)
  {
    if a.Send? then Shipped(s, a.node, a.follower, a.last, strip) else Next(s, a)
  }

  /** A producer's message is not empty and is stored with its hash. */
  predicate Proper(md5: string -> Hash, a: Action<Msg>) {
    a.Execute? ==> a.value.data != "" && a.value.hash == md5(a.value.data)
  }

  ghost predicate QueueStep(md5: string -> Hash, s: World<Msg>, a: Action<Msg>, s': World<Msg>) {
    Possible(s, a) && Proper(md5, a) && s' == After(s, a, StripMsg)
  }

  ghost predicate IsQueueRun(md5: string -> Hash, size: nat, worlds: seq<World<Msg>>, actions: seq<Action<Msg>>) {
    |worlds| == |actions| + 1 && worlds[0] == Init(size) &&
    forall i {:trigger QueueStep(md5, worlds[i], actions[i], worlds[i + 1])} ::
      0 <= i < |actions| ==> QueueStep(md5, worlds[i], actions[i], worlds[i + 1])
  }

  // ---------------------------------------------------------------- remembering the message

  /** A stored message together with the text its producer sent. No step reads the text. */
  datatype Tagged = Tagged(producer: nat, hash: Hash, data: string, text: string)

  function Strip(t: Tagged): Tagged { t.(data := "") }

  function Tag(m: Msg): Tagged { Tagged(m.producer, m.hash, m.data, m.data) }

  function Erase(t: Tagged): Msg { Msg(t.producer, t.hash, t.data) }

  /** What a stored message stands for, whether or not its payload is here. */
  function Identity(t: Tagged): Value { Message(t.producer, t.hash, t.text) }

  function Same<V>(v: V): V { v }

  lemma MapShipped<A(!new), B>(g: A -> B, s: World<A>, i: nat, f: nat, last: nat, strip: A -> A, strip': B -> B)
    requires CanSend(s, i, f, last)
    requires forall v: A :: g(strip(v)) == strip'(g(v))
    ensures CanSend(MapWorld(g, s), i, f, last)
    ensures MapWorld(g, Shipped(s, i, f, last, strip)) == Shipped(MapWorld(g, s), i, f, last, strip')
  {
    var n, m := s.nodes[i], MapNode(g, s.nodes[i]);
    var next := n.nextIndex[f];
    var r, r' := MakeRequest(n, i, next, last), MakeRequest(m, i, next, last);
    assert MapLog(g, r.entries) == r'.entries;
    assert MapLog(g, Lighten(r.entries, next, n.commit, strip)) == Lighten(r'.entries, next, n.commit, strip');
    MapSetRpc(g, s.rpcs, Link(i, n.term, f), Sent(LightRequest(n, i, next, last, strip)));
  }

  lemma ShippedWhole<V>(s: World<V>, i: nat, f: nat, last: nat)
    requires CanSend(s, i, f, last)
    ensures Shipped(s, i, f, last, Same) == Requested(s, i, f, last)
  {
    var n := s.nodes[i];
    var r := MakeRequest(n, i, n.nextIndex[f], last);
    assert Lighten(r.entries, n.nextIndex[f], n.commit, Same) == r.entries;
  }

  /** Steps commute with a translation that commutes with losing the payload. */
  lemma MapAfter<A(!new), B>(g: A -> B, s: World<A>, a: Action<A>, strip: A -> A, strip': B -> B)
    requires forall v: A :: g(strip(v)) == strip'(g(v))
    ensures Possible(s, a) <==> Possible(MapWorld(g, s), MapAction(g, a))
    ensures Possible(s, a) ==> MapWorld(g, After(s, a, strip)) == After(MapWorld(g, s), MapAction(g, a), strip')
  {
    MapEnabled(g, s, a);
    if Possible(s, a) {
      if a.Send? { MapShipped(g, s, a.node, a.follower, a.last, strip, strip'); } else { MapNext(g, s, a); }
    }
  }

  /** The text of a new message is its payload. */
  ghost predicate TaggedStep(md5: string -> Hash, s: World<Tagged>, a: Action<Tagged>, s': World<Tagged>) {
    && Possible(s, a) && s' == After(s, a, Strip)
    && (a.Execute? ==> a.value.text == a.value.data != "" && a.value.hash == md5(a.value.text))
  }

  ghost predicate IsTaggedRun(md5: string -> Hash, size: nat, worlds: seq<World<Tagged>>,
                              actions: seq<Action<Tagged>>) {
    |worlds| == |actions| + 1 && worlds[0] == Init(size) &&
    forall i {:trigger TaggedStep(md5, worlds[i], actions[i], worlds[i + 1])} ::
      0 <= i < |actions| ==> TaggedStep(md5, worlds[i], actions[i], worlds[i + 1])
  }

  lemma UntagAction(a: Action<Msg>)
    ensures MapAction(Erase, MapAction(Tag, a)) == a
  {}

  lemma MapInit<A, B>(g: A -> B, size: nat)
    ensures MapWorld(g, Init(size)) == Init(size)
  {
    assert MapLog(g, []) == [] && MapSeq<A, B>(g, []) == [];
    assert MapCalls(g, []) == [] && MapRpcs(g, map[]) == map[];
  }

  lemma TagStep(md5: string -> Hash, s: World<Tagged>, a: Action<Msg>, s': World<Msg>) returns (t': World<Tagged>)
    requires QueueStep(md5, MapWorld(Erase, s), a, s')
    ensures TaggedStep(md5, s, MapAction(Tag, a), t') && MapWorld(Erase, t') == s'
  {
    UntagAction(a);
    MapAfter(Erase, s, MapAction(Tag, a), Strip, StripMsg);
    t' := After(s, MapAction(Tag, a), Strip);
  }

  lemma ShorterQueueRun(md5: string -> Hash, size: nat, worlds: seq<World<Msg>>, actions: seq<Action<Msg>>, last: nat)
    requires IsQueueRun(md5, size, worlds, actions) && |actions| == last + 1
    ensures IsQueueRun(md5, size, worlds[..last + 1], actions[..last])
    ensures QueueStep(md5, worlds[last], actions[last], worlds[last + 1])
  {
    forall i | 0 <= i < last
      ensures QueueStep(md5, worlds[..last + 1][i], actions[..last][i], worlds[..last + 1][i + 1])
    {
      assert QueueStep(md5, worlds[i], actions[i], worlds[i + 1]);
    }
  }

  lemma LongerTaggedRun(md5: string -> Hash, size: nat, tagged: seq<World<Tagged>>, acts: seq<Action<Tagged>>,
                        a: Action<Tagged>, t': World<Tagged>)
    requires IsTaggedRun(md5, size, tagged, acts) && TaggedStep(md5, tagged[|acts|], a, t')
    ensures IsTaggedRun(md5, size, tagged + [t'], acts + [a])
  {
    var longer, more := tagged + [t'], acts + [a];
    forall i | 0 <= i < |more| ensures TaggedStep(md5, longer[i], more[i], longer[i + 1]) {
      if i < |acts| { assert TaggedStep(md5, tagged[i], acts[i], tagged[i + 1]); }
    }
  }

  /** Every run is what is left of a run that remembers texts. */
  lemma {:induction false} TagRun(md5: string -> Hash, size: nat, worlds: seq<World<Msg>>, actions: seq<Action<Msg>>)
      returns (tagged: seq<World<Tagged>>, acts: seq<Action<Tagged>>)
    requires IsQueueRun(md5, size, worlds, actions)
    ensures IsTaggedRun(md5, size, tagged, acts) && |acts| == |actions|
    ensures forall i :: 0 <= i < |worlds| ==> MapWorld(Erase, tagged[i]) == worlds[i]
    ensures forall i :: 0 <= i < |actions| ==> acts[i] == MapAction(Tag, actions[i])
    decreases |actions|
  {
    if |actions| == 0 {
      tagged, acts := [Init(size)], [];
      MapInit(Erase, size);
    } else {
      var last := |actions| - 1;
      ShorterQueueRun(md5, size, worlds, actions, last);
      tagged, acts := TagRun(md5, size, worlds[..last + 1], actions[..last]);
      var t' := TagStep(md5, tagged[last], actions[last], worlds[last + 1]);
      LongerTaggedRun(md5, size, tagged, acts, MapAction(Tag, actions[last]), t');
      tagged, acts := tagged + [t'], acts + [MapAction(Tag, actions[last])];
    }
  }

  /** Seen as identities, a queue run is a run of the replication protocol. */
  lemma CoreStep(s: World<Tagged>, a: Action<Tagged>)
    requires Possible(s, a)
    ensures Enabled(MapWorld(Identity, s), MapAction(Identity, a))
    ensures MapWorld(Identity, After(s, a, Strip)) == Next(MapWorld(Identity, s), MapAction(Identity, a))
  {
    MapAfter(Identity, s, a, Strip, Same);
    if a.Send? { ShippedWhole(MapWorld(Identity, s), a.node, a.follower, a.last); }
  }
}
