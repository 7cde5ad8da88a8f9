/** What one vote call and one answer to it do to the node that gets them, field by field. */
module Elections {
  import opened Entries
  import opened Replica
  import opened Cluster

  /** The first log is not ahead of the second: its last term is lower, or equal and it is no longer. */
  predicate NotAhead<V>(a: seq<Entry<V>>, b: seq<Entry<V>>) {
    LastTerm(a) < LastTerm(b) || (LastTerm(a) == LastTerm(b) && |a| <= |b|)
  }

  /** The ballot asks for votes for a node with the given log. */
  predicate BallotFor<V>(b: VoteRequest, c: nat, log: seq<Entry<V>>) {
    b.candidate == c && b.lastIndex == |log| && b.lastTerm == LastTerm(log)
  }

  /** A vote is granted if and only if the ballot is of the voter's term and the voter has voted for
      the candidate already, or the ballot is of that term and the voter has not voted, or of a higher
      term, and the candidate's log is at least as far. Nothing else of the node changes than this:
      a higher term is joined as a follower even when the vote is refused, and a vote is stored. */
  lemma VoteGranted<V>(s: World<V>, v: nat, b: VoteRequest, log: seq<Entry<V>>) returns (granted: bool)
    requires CanAsk(s, v, b) && BallotFor(b, b.candidate, log)
    ensures var n := s.nodes[v];
            granted <==> (b.term == n.term && n.votedFor == Some(b.candidate)) ||
                         ((b.term > n.term || (b.term == n.term && n.votedFor == None)) && NotAhead(n.log, log))
    ensures var n, s' := s.nodes[v], Next(s, AskVote(v, b));
            && s'.answers == s.answers + {VoteAnswer(v, b, VoteReply(n.term, granted))}
            && s'.ballots == s.ballots && s'.rpcs == s.rpcs
            && s'.nodes == s.nodes[v := n.(term := Max(n.term, b.term),
                                           role := if b.term > n.term then Follower else n.role,
                                           votedFor := if granted then Some(b.candidate)
                                                       else if b.term > n.term then None else n.votedFor)]
  {
    granted := HandleVote(s.nodes[v], b).1.granted;
  }

  /** Asked now, the node answers with its vote, and stores it with the term of the ballot. */
  ghost predicate Votes<V>(s: World<V>, v: nat, b: VoteRequest) {
    CanAsk(s, v, b) &&
    var n, s' := s.nodes[v], Next(s, AskVote(v, b));
    && VoteAnswer(v, b, VoteReply(n.term, true)) in s'.answers
    && s'.nodes == s.nodes[v := n.(term := b.term, role := Follower, votedFor := Some(b.candidate))]
  }

  /** An up-to-date node is electable: among any nodes, the ballot of one whose log no other is ahead
      of, in a term above all of theirs, is granted by every other one, which stores the vote. */
  lemma Electable<V>(s: World<V>, q: set<nat>, c: nat, b: VoteRequest)
    requires (forall v :: v in q ==> v < |s.nodes|) && c in q && b in s.ballots && BallotFor(b, c, s.nodes[c].log)
    requires forall v :: v in q && v != c ==> s.nodes[v].term < b.term && NotAhead(s.nodes[v].log, s.nodes[c].log)
    ensures forall v :: v in q && v != c ==> Votes(s, v, b)
  {
    forall v | v in q && v != c ensures Votes(s, v, b) { var _ := VoteGranted(s, v, b, s.nodes[c].log); }
  }

  /** In any set of nodes there is one whose log no other is ahead of. */
  lemma {:induction false} MostComplete<V>(s: World<V>, q: set<nat>) returns (c: nat)
    requires q != {} && forall v :: v in q ==> v < |s.nodes|
    ensures c in q && forall v :: v in q ==> NotAhead(s.nodes[v].log, s.nodes[c].log)
    decreases |q|
  {
    c :| c in q;
    var rest := q - {c};
    if rest != {} {
      var d := MostComplete(s, rest);
      if NotAhead(s.nodes[c].log, s.nodes[d].log) { c := d; }
    }
  }

  /** An answer of a higher term makes a follower of that term without a vote. Otherwise an answer
      changes something only if it is the vote of a new voter for the term in which the node is a
      candidate; then it is counted, and the node leads if and only if the votes are just a majority. */
  lemma AnswerCounted<V>(s: World<V>, a: VoteAnswer)
    requires CanCount(s, a)
    ensures var c, s' := a.ballot.candidate, Next(s, CountVote(a)); var n, n' := s.nodes[c], s'.nodes[c];
            var counts := && a.reply.term <= n.term == a.ballot.term && n.role == Candidate
                          && a.reply.granted && a.voter !in n.votes;
            && s'.rpcs == s.rpcs && s'.ballots == s.ballots && s'.answers == s.answers && s'.nodes == s.nodes[c := n']
            && (a.reply.term > n.term ==> n' == n.(term := a.reply.term, votedFor := None, role := Follower))
            && (n.role != Leader ==>
                  (n'.role == Leader <==> counts && |n.votes + {a.voter}| == |s.nodes| / 2 + 1))
            && (counts ==> n'.votes == n.votes + {a.voter})
            && (counts && n'.role == Leader ==>
                  n' == n.(role := Leader, votes := n.votes + {a.voter}, pending := [], start := |n.log| + 1,
                           nextIndex := seq(|s.nodes|, _ => |n.log| + 1), matchIndex := seq(|s.nodes|, _ => 0)))
            && (counts && n'.role != Leader ==> n' == n.(votes := n.votes + {a.voter}))
            && (!counts && a.reply.term <= n.term ==> n' == n)
  {
    assert Repeat(|s.nodes|, 0) == seq(|s.nodes|, _ => 0);
    var k := |s.nodes[a.ballot.candidate].log| + 1;
    assert Repeat(|s.nodes|, k) == seq(|s.nodes|, _ => k);
  }
}
