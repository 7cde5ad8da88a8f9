/** The history of a run, and why it is safe.

    The cluster of replicas is shadowed by a history state that remembers what crashes and
    changes of leadership forget: the whole log of each term's leader, who voted for whom, what
    each node acknowledged in each term, and which entries were ever committed. The steps below
    are the things that can happen to the history; Inv is kept by each of them.
 */
module Consensus {
  import opened Entries

  /** What a node acknowledged in one term. Every later request of that term starts at or above
      low; high is the end of the last request it accepted. */
  datatype Acc = Acc(low: nat, high: nat)

  datatype Peer = Peer(term: nat, log: Log, commit: nat,
                       acc: map<nat, Acc>, vote: map<nat, nat>, cand: map<nat, Log>)

  /** The leader of a term: its log so far, the log it was elected with, and by whom. */
  datatype Reign = Reign(owner: nat, log: Log, base: nat, electors: set<nat>)

  datatype Commit = Commit(term: nat, index: nat)

  datatype State = State(peers: seq<Peer>, lead: map<nat, Reign>, commits: set<Commit>)

  // ---------------------------------------------------------------- definitions

  /** No majority can ever acknowledge entry i of term t: a majority has left the term without. */
  ghost predicate DeadBy(s: State, t: nat, i: nat, q: set<nat>) {
    IsQuorum(|s.peers|, q) &&
    forall n :: n in q ==> s.peers[n].term > t && (t in s.peers[n].acc ==> s.peers[n].acc[t].high < i)
  }

  ghost predicate Dead(s: State, t: nat, i: nat) { exists q :: DeadBy(s, t, i, q) }

  ghost predicate Anchored(s: State, log: Log, k: nat)
    requires k < |log|
  {
    log[k].term in s.lead &&
    var r := s.lead[log[k].term];
    r.base <= k < |r.log| && Agree(log, r.log, k + 1)
  }

  /** Every entry was created by the leader of its term, below the same entries as here. */
  ghost predicate Sound(s: State, log: Log) {
    Sorted(log) && forall k :: 0 <= k < |log| ==> Anchored(s, log, k)
  }

  ghost predicate PeerOk(s: State, n: nat)
    requires n < |s.peers|
  {
    var p := s.peers[n];
    && Sound(s, p.log)
    && (forall k :: 0 <= k < |p.log| ==> p.log[k].term <= p.term)
    && (p.term !in p.acc ==> forall k :: 0 <= k < |p.log| ==> p.log[k].term < p.term)
    && (forall t :: t in p.acc ==>
          t <= p.term && t in s.lead && p.acc[t].low <= p.acc[t].high <= |s.lead[t].log|)
    && (p.term in p.acc ==> Agree(p.log, s.lead[p.term].log, p.acc[p.term].high))
  }

  /** What a node acknowledged in any term it still holds, unless it can no longer be committed. */
  ghost predicate Holds(s: State, n: nat)
    requires n < |s.peers|
  {
    var p := s.peers[n];
    forall t, i :: t in p.acc && t in s.lead && s.lead[t].base < i <= p.acc[t].high ==>
      Agree(p.log, s.lead[t].log, i) || Dead(s, t, i)
  }

  /** Once a node accepts from a new leader, what it acknowledged before lies below low. */
  ghost predicate Guarded(s: State, n: nat)
    requires n < |s.peers|
  {
    var p := s.peers[n];
    p.term in p.acc ==>
      forall t, i :: t in p.acc && t < p.term && t in s.lead && s.lead[t].base < i <= p.acc[t].high ==>
        i <= p.acc[p.term].low || Dead(s, t, i)
  }

  ghost predicate Covered(s: State, n: nat, t: nat, log: Log)
    requires n < |s.peers|
  {
    var p := s.peers[n];
    forall t0, i :: t0 in p.acc && t0 < t && t0 in s.lead && s.lead[t0].base < i <= p.acc[t0].high ==>
      Agree(log, s.lead[t0].log, i) || Dead(s, t0, i)
  }

  /** A vote goes to a candidate holding all the voter acknowledged in earlier terms. */
  ghost predicate VotesOk(s: State, n: nat)
    requires n < |s.peers|
  {
    var p := s.peers[n];
    forall t :: t in p.vote ==>
      t <= p.term && p.vote[t] < |s.peers| && t in s.peers[p.vote[t]].cand &&
      Covered(s, n, t, s.peers[p.vote[t]].cand[t])
  }

  ghost predicate CandidatesOk(s: State, n: nat)
    requires n < |s.peers|
  {
    var p := s.peers[n];
    forall t :: t in p.cand ==>
      t <= p.term && Sound(s, p.cand[t]) && forall k :: 0 <= k < |p.cand[t]| ==> p.cand[t][k].term < t
  }

  ghost predicate KnownBy(s: State, c: Commit, term: nat, log: Log, index: nat) {
    c in s.commits && c.term <= term && index <= c.index && c.term in s.lead &&
    Agree(log, s.lead[c.term].log, index)
  }

  /** The first index entries of log are committed, by a leader of some term up to term. */
  ghost predicate Known(s: State, term: nat, log: Log, index: nat) {
    index <= |log| && (index == 0 || exists c :: KnownBy(s, c, term, log, index))
  }

  ghost predicate CommitOk(s: State, n: nat)
    requires n < |s.peers|
  {
    Known(s, s.peers[n].term, s.peers[n].log, s.peers[n].commit)
  }

  ghost predicate ReignOk(s: State, t: nat)
    requires t in s.lead
  {
    var r := s.lead[t];
    && r.owner < |s.peers| && s.peers[r.owner].term >= t && r.base <= |r.log| && Sound(s, r.log)
    && (forall k :: 0 <= k < r.base ==> r.log[k].term < t)
    && (forall k :: r.base <= k < |r.log| ==> r.log[k].term == t)
    && IsQuorum(|s.peers|, r.electors)
    && (forall v :: v in r.electors ==>
          s.peers[v].term >= t && t in s.peers[v].vote && s.peers[v].vote[t] == r.owner)
  }

  /** A later leader was elected with every entry of an earlier term that can still be committed. */
  ghost predicate Ordered(s: State, t0: nat, t: nat)
    requires t0 in s.lead && t in s.lead
  {
    forall i :: s.lead[t0].base < i <= |s.lead[t0].log| ==>
      Dead(s, t0, i) || (i <= s.lead[t].base && Agree(s.lead[t0].log, s.lead[t].log, i))
  }

  ghost predicate ChosenBy(s: State, c: Commit, q: set<nat>) {
    IsQuorum(|s.peers|, q) &&
    forall n :: n in q ==> c.term in s.peers[n].acc && c.index <= s.peers[n].acc[c.term].low
  }

  ghost predicate Chosen(s: State, c: Commit) {
    c.term in s.lead && s.lead[c.term].base < c.index <= |s.lead[c.term].log| &&
    exists q :: ChosenBy(s, c, q)
  }

  ghost predicate NodeInv(s: State, n: nat)
    requires n < |s.peers|
  {
    PeerOk(s, n) && Holds(s, n) && Guarded(s, n) && VotesOk(s, n) && CandidatesOk(s, n) && CommitOk(s, n)
  }

  ghost predicate Inv(s: State) {
    && (forall n :: 0 <= n < |s.peers| ==> NodeInv(s, n))
    && (forall t {:trigger ReignOk(s, t)} :: t in s.lead ==> ReignOk(s, t))
    && (forall t0, t {:trigger Ordered(s, t0, t)} :: t0 in s.lead && t in s.lead && t0 < t ==> Ordered(s, t0, t))
    && (forall c {:trigger Chosen(s, c)} :: c in s.commits ==> Chosen(s, c))
  }

  /** What never changes: terms grow, leader logs grow, past acknowledgements are final. */
  ghost predicate Evolves(s: State, s': State) {
    && |s'.peers| == |s.peers|
    && (forall n {:trigger PeerEvolves(s.peers[n], s'.peers[n])} ::
          0 <= n < |s.peers| ==> PeerEvolves(s.peers[n], s'.peers[n]))
    && s.lead.Keys <= s'.lead.Keys
    && (forall t {:trigger ReignEvolves(s.lead[t], s'.lead[t])} ::
          t in s.lead ==> ReignEvolves(s.lead[t], s'.lead[t]))
    && s.commits <= s'.commits
  }

  ghost predicate PeerEvolves(p: Peer, p': Peer) {
    && p.term <= p'.term
    && (forall t :: t in p.acc ==> t in p'.acc && p.acc[t].low <= p'.acc[t].low)
    && (forall t :: t < p.term && t in p'.acc ==> t in p.acc && p'.acc[t].high == p.acc[t].high)
    && (forall t :: t in p.vote ==> t in p'.vote && p'.vote[t] == p.vote[t])
    && (forall t :: t in p.cand ==> t in p'.cand && p'.cand[t] == p.cand[t])
  }

  ghost predicate ReignEvolves(r: Reign, r': Reign) {
    r'.owner == r.owner && r'.base == r.base && r'.electors == r.electors &&
    |r.log| <= |r'.log| && Agree(r.log, r'.log, |r.log|)
  }

  // ---------------------------------------------------------------- monotonicity

  lemma EvolvesTransitive(a: State, b: State, c: State)
    requires Evolves(a, b) && Evolves(b, c)
    ensures Evolves(a, c)
  {
    forall n | 0 <= n < |a.peers| ensures PeerEvolves(a.peers[n], c.peers[n]) {
      assert PeerEvolves(a.peers[n], b.peers[n]) && PeerEvolves(b.peers[n], c.peers[n]);
    }
    forall t | t in a.lead ensures t in c.lead && ReignEvolves(a.lead[t], c.lead[t]) {
      assert ReignEvolves(a.lead[t], b.lead[t]) && ReignEvolves(b.lead[t], c.lead[t]);
    }
  }

  lemma DeadStays(s: State, s': State, t: nat, i: nat)
    requires Evolves(s, s') && Dead(s, t, i)
    ensures Dead(s', t, i)
  {
    var q :| DeadBy(s, t, i, q);
    forall n | n in q ensures s'.peers[n].term > t && (t in s'.peers[n].acc ==> s'.peers[n].acc[t].high < i) {
      assert PeerEvolves(s.peers[n], s'.peers[n]);
    }
    assert DeadBy(s', t, i, q);
  }

  lemma SoundStays(s: State, s': State, log: Log)
    requires Evolves(s, s') && Sound(s, log)
    ensures Sound(s', log)
  {
    forall k | 0 <= k < |log| ensures Anchored(s', log, k) {
      assert Anchored(s, log, k);
      assert ReignEvolves(s.lead[log[k].term], s'.lead[log[k].term]);
    }
  }

  lemma KnownStays(s: State, s': State, term: nat, term': nat, log: Log, index: nat)
    requires Evolves(s, s') && Known(s, term, log, index) && term <= term'
    ensures Known(s', term', log, index)
  {
    if index > 0 {
      var c :| KnownBy(s, c, term, log, index);
      assert ReignEvolves(s.lead[c.term], s'.lead[c.term]);
      assert KnownBy(s', c, term', log, index);
    }
  }

  lemma ChosenStays(s: State, s': State, c: Commit)
    requires Evolves(s, s') && Chosen(s, c)
    ensures Chosen(s', c)
  {
    var q :| ChosenBy(s, c, q);
    forall n | n in q ensures c.term in s'.peers[n].acc && c.index <= s'.peers[n].acc[c.term].low {
      assert PeerEvolves(s.peers[n], s'.peers[n]);
    }
    assert ReignEvolves(s.lead[c.term], s'.lead[c.term]);
    assert ChosenBy(s', c, q);
  }

  /** A committed entry cannot be dead: majorities meet. */
  lemma ChosenAlive(s: State, c: Commit)
    requires Inv(s) && c in s.commits
    ensures !Dead(s, c.term, c.index)
  {
    assert Chosen(s, c);
    var q :| ChosenBy(s, c, q);
    forall d ensures !DeadBy(s, c.term, c.index, d) {
      if IsQuorum(|s.peers|, d) {
        var n := QuorumsMeet(|s.peers|, q, d);
        assert NodeInv(s, n);
      }
    }
  }

  /** Leader completeness: a later leader was elected with every committed entry. */
  lemma Completeness(s: State, c: Commit, t: nat)
    requires Inv(s) && c in s.commits && t in s.lead && c.term < t
    ensures c.term in s.lead && c.index <= s.lead[t].base && Agree(s.lead[c.term].log, s.lead[t].log, c.index)
  {
    assert Chosen(s, c);
    ChosenAlive(s, c);
    assert Ordered(s, c.term, t);
  }

  /** Entries known to be committed by term t are in the log of the leader of t. */
  lemma KnownInLead(s: State, t: nat, log: Log, index: nat)
    requires Inv(s) && t in s.lead && Known(s, t, log, index)
    ensures Agree(log, s.lead[t].log, index)
  {
    if index > 0 {
      var c :| KnownBy(s, c, t, log, index);
      assert Chosen(s, c);
      if c.term < t { Completeness(s, c, t); }
    }
  }

  /** Two commits name prefixes of one log. */
  lemma ChosenAgree(s: State, c1: Commit, c2: Commit, i: nat)
    requires Inv(s) && c1 in s.commits && c2 in s.commits && i <= c1.index && i <= c2.index
    ensures c1.term in s.lead && c2.term in s.lead && Agree(s.lead[c1.term].log, s.lead[c2.term].log, i)
  {
    assert Chosen(s, c1) && Chosen(s, c2);
    if c1.term < c2.term {
      Completeness(s, c1, c2.term);
    } else if c2.term < c1.term {
      Completeness(s, c2, c1.term);
    }
  }

  /** Any two committed prefixes agree. */
  lemma KnownAgree(s: State, t1: nat, log1: Log, i1: nat, t2: nat, log2: Log, i2: nat)
    requires Inv(s) && Known(s, t1, log1, i1) && Known(s, t2, log2, i2) && i1 <= i2
    ensures Agree(log1, log2, i1)
  {
    if i1 > 0 {
      var c1 :| KnownBy(s, c1, t1, log1, i1);
      var c2 :| KnownBy(s, c2, t2, log2, i2);
      ChosenAgree(s, c1, c2, i1);
    }
  }

  /** Log matching: equal index and term means equal prefixes. */
  lemma MatchingLogs(s: State, a: Log, b: Log, q: nat)
    requires Sound(s, a) && Sound(s, b) && Matches(a, b, q)
    ensures Agree(a, b, q)
  {
    assert Anchored(s, a, q - 1) && Anchored(s, b, q - 1);
  }
}
