/** The state machine wrapper that executes each client request once. */
module ExactlyOnce {
  import opened Entries

  /** Any deterministic state machine: its response to the last of the commands it has executed. */
  type Machine = seq<string> -> string

  /** What is remembered of a client; an unknown client has request id 0 and no response. */
  datatype Last = Last(requestId: nat, response: string)

  datatype Wrapper = Wrapper(executed: seq<string>, clients: map<nat, Last>)

  function LastOf(w: Wrapper, client: nat): Last {
    if client in w.clients then w.clients[client] else Last(0, "")
  }

  function Apply(machine: Machine, w: Wrapper, r: Request): (Wrapper, string) {
    var last := LastOf(w, r.clientId);
    if last.requestId == r.requestId then
      (w.(clients := w.clients[r.clientId := last]), last.response)
    else
      var executed := w.executed + [r.command];
      var response := machine(executed);
      (Wrapper(executed, w.clients[r.clientId := Last(r.requestId, response)]), response)
  }

  function Run(machine: Machine, log: seq<Request>): Wrapper {
    if log == [] then Wrapper([], map[])
    else Apply(machine, Run(machine, log[..|log| - 1]), log[|log| - 1]).0
  }

  /** The response to the last request of a log. */
  function Response(machine: Machine, log: seq<Request>): string
    requires log != []
  {
    Apply(machine, Run(machine, log[..|log| - 1]), log[|log| - 1]).1
  }

  // ---------------------------------------------------------------- what is executed

  /** Request j is the last one of the client before i. */
  ghost predicate IsPrevious(log: seq<Request>, client: nat, i: nat, j: nat) {
    j < i <= |log| && log[j].clientId == client &&
    forall k :: j < k < i ==> log[k].clientId != client
  }

  /** The id of the client's previous request, or 0: what request i is compared with. */
  ghost predicate PreviousId(log: seq<Request>, client: nat, i: nat, id: nat)
    requires i <= |log|
  {
    (exists j: nat :: IsPrevious(log, client, i, j) && log[j].requestId == id) ||
    (id == 0 && forall k :: 0 <= k < i ==> log[k].clientId != client)
  }

  /** Request i differs from the client's previous one. */
  ghost predicate Fresh(log: seq<Request>, i: nat)
    requires i < |log|
  {
    !PreviousId(log, log[i].clientId, i, log[i].requestId)
  }

  /** The commands at the first n positions that satisfy keep, in order. */
  ghost function Pick(log: seq<Request>, keep: nat -> bool, n: nat): seq<string>
    requires n <= |log|
  {
    if n == 0 then [] else Pick(log, keep, n - 1) + (if keep(n - 1) then [log[n - 1].command] else [])
  }

  lemma OnePrevious(log: seq<Request>, client: nat, n: nat, a: nat, b: nat)
    requires n <= |log| && PreviousId(log, client, n, a) && PreviousId(log, client, n, b)
    ensures a == b
  {}

  /** What the wrapper remembers of a client is its previous request. */
  lemma {:induction false} RemembersPrevious(machine: Machine, log: seq<Request>, n: nat, client: nat)
    requires n <= |log|
    ensures PreviousId(log, client, n, LastOf(Run(machine, log[..n]), client).requestId)
    decreases n
  {
    var id := LastOf(Run(machine, log[..n]), client).requestId;
    if n > 0 {
      assert log[..n][..n - 1] == log[..n - 1];
      RemembersPrevious(machine, log, n - 1, client);
      if log[n - 1].clientId == client {
        assert IsPrevious(log, client, n, n - 1);
      } else if j: nat :| IsPrevious(log, client, n - 1, j) && log[j].requestId == id {
        assert IsPrevious(log, client, n, j);
      }
    }
  }

  /** With no hypothesis: the inner machine executes exactly the requests that differ from their
      client's previous one. */
  lemma {:induction false} ExecutesFresh(machine: Machine, log: seq<Request>, n: nat)
    requires n <= |log|
    ensures Run(machine, log[..n]).executed == Pick(log, (i: nat) => i < |log| && Fresh(log, i), n)
    decreases n
  {
    if n > 0 {
      assert log[..n][..n - 1] == log[..n - 1];
      ExecutesFresh(machine, log, n - 1);
      var r := log[n - 1];
      var id := LastOf(Run(machine, log[..n - 1]), r.clientId).requestId;
      RemembersPrevious(machine, log, n - 1, r.clientId);
      if !Fresh(log, n - 1) { OnePrevious(log, r.clientId, n - 1, id, r.requestId); }
    }
  }

  /** A fresh request gets the inner machine's answer to all it has executed, itself included. */
  lemma FreshAnswered(machine: Machine, log: seq<Request>, i: nat)
    requires i < |log| && Fresh(log, i)
    ensures var kept := (k: nat) => k < |log| && Fresh(log, k);
            Response(machine, log[..i + 1]) == machine(Pick(log, kept, i + 1))
  {
    assert log[..i + 1][..i] == log[..i];
    RemembersPrevious(machine, log, i, log[i].clientId);
    ExecutesFresh(machine, log, i);
  }

  // ---------------------------------------------------------------- exactly once

  ghost predicate SameRequest(a: Request, b: Request) { a.clientId == b.clientId && a.requestId == b.requestId }

  /** Ids are not 0, and copies of a request are not separated by another request of the client: it
      goes on only when it is answered, and none of its earlier attempts comes late. */
  ghost predicate Disciplined(log: seq<Request>) {
    (forall i :: 0 <= i < |log| ==> log[i].requestId != 0) &&
    (forall i, j, k :: 0 <= i < j < k < |log| && SameRequest(log[i], log[k]) && log[j].clientId == log[i].clientId ==>
       SameRequest(log[i], log[j]))
  }

  ghost predicate FirstCopy(log: seq<Request>, i: nat) {
    i < |log| && forall j :: 0 <= j < i ==> !SameRequest(log[j], log[i])
  }

  lemma FreshIsFirst(log: seq<Request>, i: nat)
    requires Disciplined(log) && i < |log|
    ensures Fresh(log, i) <==> FirstCopy(log, i)
  {
    var r := log[i];
    if !FirstCopy(log, i) {
      var j :| 0 <= j < i && SameRequest(log[j], r);
      var k := LatestOf(log, r.clientId, i, j);
      assert IsPrevious(log, r.clientId, i, k);
      assert SameRequest(log[k], r);
    }
    if !Fresh(log, i) {
      var j: nat :| IsPrevious(log, r.clientId, i, j) && log[j].requestId == r.requestId;
      assert SameRequest(log[j], r);
    }
  }

  /** The last request of the client before i. */
  lemma LatestOf(log: seq<Request>, client: nat, i: nat, j: nat) returns (k: nat)
    requires j < i <= |log| && log[j].clientId == client
    ensures j <= k && IsPrevious(log, client, i, k)
  {
    k := j;
    while exists m :: k < m < i && log[m].clientId == client
      invariant j <= k < i && log[k].clientId == client
      decreases i - k
    {
      var m: nat :| k < m < i && log[m].clientId == client;
      k := m;
    }
  }

  lemma {:induction false} PickSame(log: seq<Request>, p: nat -> bool, q: nat -> bool, n: nat)
    requires n <= |log| && forall i: nat :: i < n ==> p(i) == q(i)
    ensures Pick(log, p, n) == Pick(log, q, n)
  {
    if n > 0 { PickSame(log, p, q, n - 1); }
  }

  /** The inner machine executes each request of a disciplined log once, in the order in which they
      first occur. */
  lemma ExecutesOnce(machine: Machine, log: seq<Request>)
    requires Disciplined(log)
    ensures Run(machine, log).executed == Pick(log, (i: nat) => FirstCopy(log, i), |log|)
  {
    assert log[..|log|] == log;
    ExecutesFresh(machine, log, |log|);
    var p, q := (i: nat) => i < |log| && Fresh(log, i), (i: nat) => FirstCopy(log, i);
    forall i: nat | i < |log| ensures p(i) == q(i) { FreshIsFirst(log, i); }
    PickSame(log, p, q, |log|);
  }

  lemma {:induction false} RemembersResponse(machine: Machine, log: seq<Request>, i: nat, n: nat)
    requires i < n <= |log|
    requires forall m :: i <= m < n && log[m].clientId == log[i].clientId ==> SameRequest(log[i], log[m])
    ensures LastOf(Run(machine, log[..n]), log[i].clientId) ==
            Last(log[i].requestId, Response(machine, log[..i + 1]))
    decreases n
  {
    assert log[..n][..n - 1] == log[..n - 1];
    if n == i + 1 {
      assert log[..n][n - 1] == log[i];
    } else {
      RemembersResponse(machine, log, i, n - 1);
    }
  }

  /** Every copy of a request gets the response of the first, and a later one executes nothing. */
  lemma CopiesAnsweredAlike(machine: Machine, log: seq<Request>, i: nat, k: nat)
    requires Disciplined(log) && i < k < |log| && SameRequest(log[i], log[k])
    ensures Response(machine, log[..k + 1]) == Response(machine, log[..i + 1])
    ensures Run(machine, log[..k + 1]).executed == Run(machine, log[..k]).executed
  {
    assert log[..k + 1][..k] == log[..k];
    RemembersResponse(machine, log, i, k);
  }

  /** These are some of the items, in their order. */
  ghost predicate Picks<T>(some: seq<T>, all: seq<T>, at: seq<nat>) {
    && |at| == |some| && (forall p :: 0 <= p < |at| ==> at[p] < |all| && some[p] == all[at[p]])
    && (forall p, q :: 0 <= p < q < |at| ==> at[p] < at[q])
  }

  /** To be disciplined is a matter of order: leaving requests out does no harm. */
  lemma StaysDisciplined(some: seq<Request>, all: seq<Request>, at: seq<nat>)
    requires Disciplined(all) && Picks(some, all, at)
    ensures Disciplined(some)
  {
    forall i, j, k | 0 <= i < j < k < |some| && SameRequest(some[i], some[k]) && some[j].clientId == some[i].clientId
      ensures SameRequest(some[i], some[j])
    {
      assert at[i] < at[j] < at[k];
    }
  }

  // ---------------------------------------------------------------- the wrapper object

  /** Its maps and its inner machine change in place; applied is what it has been given. */
  class ExactlyOnceStateMachine {
    const machine: Machine
    var executed: seq<string>
    var clients: map<nat, Last>
    ghost var applied: seq<Request>

    ghost predicate Valid()
      reads this
    {
      Wrapper(executed, clients) == Run(machine, applied)
    }

    constructor (machine: Machine)
      ensures Valid() && this.machine == machine && applied == []
    {
      this.machine := machine;
      executed, clients, applied := [], map[], [];
    }

    method Apply(request: Request) returns (response: string)
      requires Valid()
      modifies this
      ensures Valid() && applied == old(applied) + [request]
      ensures response == Response(machine, applied)
    {
      assert (applied + [request])[..|applied|] == applied;
      if request.clientId !in clients {
        clients := clients[request.clientId := Last(0, "")];
      }
      var last := clients[request.clientId];
      if last.requestId == request.requestId {
        response := last.response;
      } else {
        executed := executed + [request.command];
        response := machine(executed);
        clients := clients[request.clientId := Last(request.requestId, response)];
      }
      applied := applied + [request];
    }
  }
}
