/** Stop callbacks: an intrusive doubly linked list threaded through the callbacks themselves. */
module StopList {

  // ---------------------------------------------------------------- what it means

  /** The callbacks still waiting for a stop, newest first, and those that ran, in order. */
  datatype Registry<T> = Registry(waiting: seq<T>, cancelled: bool, ran: seq<T>)

  datatype Op<T> = Register(callback: T) | Destroy(callback: T) | Stop

  function Without<T(==)>(s: seq<T>, c: T): seq<T> {
    if s == [] then [] else if s[0] == c then Without(s[1..], c) else [s[0]] + Without(s[1..], c)
  }

  function Registered<T>(s: Registry<T>, c: T): Registry<T> {
    if s.cancelled then s.(ran := s.ran + [c]) else s.(waiting := [c] + s.waiting)
  }

  function Destroyed<T(==)>(s: Registry<T>, c: T): Registry<T> { s.(waiting := Without(s.waiting, c)) }

  function Stopped<T>(s: Registry<T>): Registry<T> { Registry([], true, s.ran + s.waiting) }

  function Step<T(==)>(s: Registry<T>, op: Op<T>): Registry<T> {
    match op
    case Register(c) => Registered(s, c)
    case Destroy(c) => Destroyed(s, c)
    case Stop => Stopped(s)
  }

  function After<T(==)>(ops: seq<Op<T>>): Registry<T> {
    if ops == [] then Registry([], false, []) else Step(After(ops[..|ops| - 1]), ops[|ops| - 1])
  }

  /** Where the callback is in the list, or the length of the list if it is not there. */
  ghost function IndexOf<T>(s: seq<T>, c: T): (k: nat)
    ensures k <= |s| && if k < |s| then s[k] == c else c !in s
  {
    if c in s then var k: nat :| k < |s| && s[k] == c; k else |s|
  }

  /** The sequence without its element k, if it has one. */
  ghost function Skipping<T>(s: seq<T>, k: nat): seq<T>
    requires k <= |s|
  {
    if k < |s| then s[..k] + s[k + 1..] else s
  }

  ghost predicate Distinct<T>(s: seq<T>) { forall i, j :: 0 <= i < j < |s| ==> s[i] != s[j] }

  lemma {:induction false} WithoutElements<T>(s: seq<T>, c: T)
    ensures forall x :: x in Without(s, c) <==> x in s && x != c
  {
    if s != [] {
      WithoutElements(s[1..], c);
      assert s == [s[0]] + s[1..];
    }
  }

  lemma {:induction false} WithoutAbsent<T>(s: seq<T>, c: T)
    requires c !in s
    ensures Without(s, c) == s
  {
    if s != [] { WithoutAbsent(s[1..], c); }
  }

  lemma {:induction false} WithoutAt<T>(s: seq<T>, k: nat)
    requires k < |s| && Distinct(s)
    ensures Without(s, s[k]) == s[..k] + s[k + 1..]
  {
    var c := s[k];
    if k == 0 {
      WithoutAbsent(s[1..], c);
    } else {
      assert s[0] != c && s[1..][k - 1] == c;
      WithoutAt(s[1..], k - 1);
      assert [s[0]] + (s[1..][..k - 1] + s[1..][k..]) == s[..k] + s[k + 1..];
    }
  }

  lemma WithoutDistinct<T>(s: seq<T>, k: nat)
    requires k < |s| && Distinct(s)
    ensures Distinct(s[..k] + s[k + 1..])
  {
    var r := s[..k] + s[k + 1..];
    forall i, j | 0 <= i < j < |r| ensures r[i] != r[j] {
      var x, y := if i < k then i else i + 1, if j < k then j else j + 1;
      assert r[i] == s[x] && r[j] == s[y];
    }
  }

  lemma WithoutSkips<T>(s: seq<T>, c: T, k: nat)
    requires Distinct(s) && k <= |s| && if k < |s| then s[k] == c else c !in s
    ensures Skipping(s, k) == Without(s, c) && c !in Skipping(s, k)
  {
    if k < |s| { WithoutAt(s, k); } else { WithoutAbsent(s, c); }
  }

  // ---------------------------------------------------------------- whole lives

  /** Every callback is an object of its own: it is constructed once. */
  ghost predicate OnceEach<T>(ops: seq<Op<T>>) {
    forall i, j :: 0 <= i < j < |ops| && ops[i].Register? ==> ops[i] != ops[j]
  }

  /** Registered by operation i, and not destroyed between it and operation j. */
  ghost predicate Alive<T>(ops: seq<Op<T>>, c: T, i: int, j: int) {
    0 <= i < |ops| && ops[i] == Register(c) && forall k :: i < k < j && k < |ops| ==> ops[k] != Destroy(c)
  }

  ghost predicate Pending<T>(ops: seq<Op<T>>, c: T) {
    Stop !in ops && exists i :: Alive(ops, c, i, |ops|)
  }

  /** A stop found it alive, or came before it was registered. */
  ghost predicate Runs<T>(ops: seq<Op<T>>, c: T) {
    exists i, j :: 0 <= j < |ops| && ops[j] == Stop && Alive(ops, c, i, j)
  }

  lemma AliveLonger<T>(ops: seq<Op<T>>, c: T, i: int, j: int)
    requires ops != [] && i < |ops| - 1 && j < |ops|
    ensures Alive(ops, c, i, j) <==> Alive(ops[..|ops| - 1], c, i, j)
  {}

  lemma AliveToEnd<T>(ops: seq<Op<T>>, c: T, i: int)
    requires ops != [] && i < |ops| - 1
    ensures var last := |ops| - 1;
            Alive(ops, c, i, |ops|) <==> Alive(ops[..last], c, i, last) && ops[last] != Destroy(c)
  {
    var last := |ops| - 1;
    if Alive(ops, c, i, |ops|) { assert ops[last] != Destroy(c); }
  }

  lemma RunsLonger<T>(ops: seq<Op<T>>, c: T)
    requires ops != []
    ensures var init, op := ops[..|ops| - 1], ops[|ops| - 1];
            Runs(ops, c) <==> Runs(init, c) || (op == Register(c) && Stop in init) || (op == Stop && Pending(init, c))
  {
    var last := |ops| - 1;
    var init, op := ops[..last], ops[last];
    if Runs(ops, c) {
      var i, j :| 0 <= j < |ops| && ops[j] == Stop && Alive(ops, c, i, j);
      if i < last {
        AliveLonger(ops, c, i, j);
        if j == last && Stop in init {
          var e :| 0 <= e < last && init[e] == Stop;
          assert Alive(init, c, i, e);
        } else if j < last {
          assert init[j] == Stop;
        }
      } else {
        assert init[j] == Stop;
      }
    }
    if Runs(init, c) {
      var i, j :| 0 <= j < |init| && init[j] == Stop && Alive(init, c, i, j);
      AliveLonger(ops, c, i, j);
      assert ops[j] == Stop;
    }
    if op == Register(c) && Stop in init {
      var e :| 0 <= e < last && init[e] == Stop;
      assert ops[e] == Stop && Alive(ops, c, last, e);
    }
    if op == Stop && Pending(init, c) {
      var i :| Alive(init, c, i, |init|);
      AliveLonger(ops, c, i, last);
    }
  }

  lemma PendingLonger<T>(ops: seq<Op<T>>, c: T)
    requires ops != []
    ensures var init, op := ops[..|ops| - 1], ops[|ops| - 1];
            Pending(ops, c) <==>
              Stop !in init && op != Stop && (op == Register(c) || (op != Destroy(c) && Pending(init, c)))
  {
    var last := |ops| - 1;
    var init, op := ops[..last], ops[last];
    assert ops == init + [op];
    if Pending(ops, c) {
      var i :| Alive(ops, c, i, |ops|);
      if i < last { AliveToEnd(ops, c, i); }
    }
    if op == Register(c) { assert Alive(ops, c, last, |ops|); }
    if op != Destroy(c) && Pending(init, c) {
      var i :| Alive(init, c, i, |init|);
      AliveToEnd(ops, c, i);
    }
  }

  /** The list holds exactly the callbacks that are registered, alive and not run; those that ran are
      exactly the ones a stop found alive, or that were registered after one. */
  lemma {:induction false} ListMeaning<T>(ops: seq<Op<T>>, c: T)
    ensures var s := After(ops);
            && (s.cancelled <==> Stop in ops)
            && (c in s.waiting <==> Pending(ops, c))
            && (c in s.ran <==> Runs(ops, c))
    decreases |ops|
  {
    if ops != [] {
      var init, op := ops[..|ops| - 1], ops[|ops| - 1];
      assert ops == init + [op];
      ListMeaning(init, c);
      PendingLonger(ops, c);
      RunsLonger(ops, c);
      if op.Destroy? { WithoutElements(After(init).waiting, op.callback); }
    }
  }

  /** Callbacks of the list that were registered later come first. */
  ghost predicate NewestFirst<T>(ops: seq<Op<T>>, waiting: seq<T>) {
    forall p, q, i, j {:trigger NewerAt(ops, waiting, p, q, i, j)} ::
      0 <= p < q < |waiting| && 0 <= i < |ops| && 0 <= j < |ops| ==> NewerAt(ops, waiting, p, q, i, j)
  }

  ghost predicate NewerAt<T>(ops: seq<Op<T>>, waiting: seq<T>, p: int, q: int, i: int, j: int)
    requires 0 <= p < q < |waiting| && 0 <= i < |ops| && 0 <= j < |ops|
  {
    ops[i] == Register(waiting[p]) && ops[j] == Register(waiting[q]) ==> j < i
  }

  lemma KnownRegistered<T>(ops: seq<Op<T>>, c: T)
    requires c in After(ops).waiting || c in After(ops).ran
    ensures Register(c) in ops
  {
    ListMeaning(ops, c);
    if Pending(ops, c) {
      var i :| Alive(ops, c, i, |ops|);
    } else {
      var i, j :| 0 <= j < |ops| && ops[j] == Stop && Alive(ops, c, i, j);
    }
  }

  lemma OneAtATime<T>(ops: seq<Op<T>>)
    ensures After(ops).waiting == [] || After(ops).ran == []
  {
    var s := After(ops);
    if s.waiting != [] && s.ran != [] {
      ListMeaning(ops, s.waiting[0]);
      ListMeaning(ops, s.ran[0]);
    }
  }

  lemma NewCallback<T>(init: seq<Op<T>>, c: T)
    requires Register(c) !in init
    ensures c !in After(init).waiting && c !in After(init).ran
  {
    if c in After(init).waiting || c in After(init).ran { KnownRegistered(init, c); }
  }

  lemma OnceEachBefore<T>(ops: seq<Op<T>>)
    requires ops != [] && OnceEach(ops)
    ensures OnceEach(ops[..|ops| - 1]) && ops == ops[..|ops| - 1] + [ops[|ops| - 1]]
    ensures ops[|ops| - 1].Register? ==> ops[|ops| - 1] !in ops[..|ops| - 1]
  {}

  lemma Removal<T>(s: seq<T>, c: T)
    requires Distinct(s)
    ensures Distinct(Without(s, c))
  {
    if c in s {
      var k :| 0 <= k < |s| && s[k] == c;
      WithoutAt(s, k);
      WithoutDistinct(s, k);
    } else {
      WithoutAbsent(s, c);
    }
  }

  /** No callback is twice in the list and none runs twice; while one waits, none has run. */
  lemma {:induction false} RunsOnce<T>(ops: seq<Op<T>>)
    requires OnceEach(ops)
    ensures var s := After(ops); Distinct(s.waiting) && Distinct(s.ran) && (s.waiting == [] || s.ran == [])
    decreases |ops|
  {
    OneAtATime(ops);
    if ops != [] {
      var init, op := ops[..|ops| - 1], ops[|ops| - 1];
      OnceEachBefore(ops);
      RunsOnce(init);
      if op.Register? { NewCallback(init, op.callback); }
      if op.Destroy? { Removal(After(init).waiting, op.callback); }
    }
  }

  lemma NewestStays<T>(ops: seq<Op<T>>, s: seq<T>, c: T)
    requires NewestFirst(ops, s) && Distinct(s)
    ensures NewestFirst(ops, Without(s, c))
  {
    if c in s {
      var k :| 0 <= k < |s| && s[k] == c;
      WithoutAt(s, k);
      var r := s[..k] + s[k + 1..];
      forall p, q, i, j | 0 <= p < q < |r| && 0 <= i < |ops| && 0 <= j < |ops| ensures NewerAt(ops, r, p, q, i, j) {
        var x, y := if p < k then p else p + 1, if q < k then q else q + 1;
        assert r[p] == s[x] && r[q] == s[y] && NewerAt(ops, s, x, y, i, j);
      }
    } else {
      WithoutAbsent(s, c);
    }
  }

  lemma NewestGrows<T>(init: seq<Op<T>>, op: Op<T>, s: seq<T>)
    requires NewestFirst(init, s) && (op.Register? ==> op.callback !in s && op !in init)
    ensures NewestFirst(init + [op], s)
    ensures op.Register? ==> NewestFirst(init + [op], [op.callback] + s)
  {
    var ops := init + [op];
    forall p, q, i, j | 0 <= p < q < |s| && 0 <= i < |ops| && 0 <= j < |ops| ensures NewerAt(ops, s, p, q, i, j) {
      if i < |init| && j < |init| { assert NewerAt(init, s, p, q, i, j); }
    }
    if op.Register? {
      var longer := [op.callback] + s;
      forall p, q, i, j | 0 <= p < q < |longer| && 0 <= i < |ops| && 0 <= j < |ops|
        ensures NewerAt(ops, longer, p, q, i, j)
      {
        assert longer[q] == s[q - 1];
        if p > 0 { assert longer[p] == s[p - 1] && NewerAt(ops, s, p - 1, q - 1, i, j); }
      }
    }
  }

  lemma {:induction false} ListOrder<T>(ops: seq<Op<T>>)
    requires OnceEach(ops)
    ensures NewestFirst(ops, After(ops).waiting)
    decreases |ops|
  {
    if ops != [] {
      var init, op := ops[..|ops| - 1], ops[|ops| - 1];
      var s := After(init).waiting;
      OnceEachBefore(ops);
      ListOrder(init);
      RunsOnce(init);
      if op.Register? { NewCallback(init, op.callback); }
      NewestGrows(init, op, s);
      if op.Destroy? { NewestStays(ops, s, op.callback); }
    }
  }

  ghost predicate FirstStop<T>(ops: seq<Op<T>>, e: nat) { e < |ops| && ops[e] == Stop && Stop !in ops[..e] }

  /** Of two callbacks that ran, both registered before the first stop, at e, the newer ran first;
      otherwise they ran in the order in which they were registered. */
  ghost predicate RanInOrder<T>(ops: seq<Op<T>>, ran: seq<T>, e: nat) {
    forall p, q, i, j {:trigger RanAt(ops, ran, e, p, q, i, j)} ::
      0 <= p < q < |ran| && 0 <= i < |ops| && 0 <= j < |ops| ==> RanAt(ops, ran, e, p, q, i, j)
  }

  ghost predicate RanAt<T>(ops: seq<Op<T>>, ran: seq<T>, e: nat, p: int, q: int, i: int, j: int)
    requires 0 <= p < q < |ran| && 0 <= i < |ops| && 0 <= j < |ops|
  {
    ops[i] == Register(ran[p]) && ops[j] == Register(ran[q]) ==> if i < e && j < e then j < i else i < j
  }

  lemma RanLonger<T>(init: seq<Op<T>>, op: Op<T>, ran: seq<T>, e: nat)
    requires RanInOrder(init, ran, e) && e < |init| && (op.Register? ==> op.callback !in ran && op !in init)
    ensures RanInOrder(init + [op], ran, e)
    ensures op.Register? ==> RanInOrder(init + [op], ran + [op.callback], e)
  {
    var ops := init + [op];
    forall p, q, i, j | 0 <= p < q < |ran| && 0 <= i < |ops| && 0 <= j < |ops| ensures RanAt(ops, ran, e, p, q, i, j) {
      if i < |init| && j < |init| { assert RanAt(init, ran, e, p, q, i, j); }
    }
    if op.Register? {
      var longer := ran + [op.callback];
      forall p, q, i, j | 0 <= p < q < |longer| && 0 <= i < |ops| && 0 <= j < |ops|
        ensures RanAt(ops, longer, e, p, q, i, j)
      {
        if q < |ran| { assert RanAt(ops, ran, e, p, q, i, j); } else { assert longer[p] == ran[p]; }
      }
    }
  }

  lemma {:induction false} AfterStop<T>(ops: seq<Op<T>>)
    requires Stop in ops
    ensures After(ops).cancelled && After(ops).waiting == []
    decreases |ops|
  {
    var init, op := ops[..|ops| - 1], ops[|ops| - 1];
    assert ops == init + [op];
    if op != Stop { AfterStop(init); }
  }

  lemma NewestRunsFirst<T>(init: seq<Op<T>>, waiting: seq<T>)
    requires NewestFirst(init, waiting)
    ensures RanInOrder(init + [Stop], waiting, |init|)
  {
    var ops := init + [Stop];
    forall p, q, i, j | 0 <= p < q < |waiting| && 0 <= i < |ops| && 0 <= j < |ops|
      ensures RanAt(ops, waiting, |init|, p, q, i, j)
    {
      if i < |init| && j < |init| { assert NewerAt(init, waiting, p, q, i, j); }
    }
  }

  /** The first stop runs what waits, newest first. */
  lemma FirstRuns<T>(init: seq<Op<T>>)
    requires OnceEach(init) && Stop !in init
    ensures RanInOrder(init + [Stop], After(init + [Stop]).ran, |init|)
  {
    FirstRan(init);
    ListOrder(init);
    NewestRunsFirst(init, After(init).waiting);
  }

  lemma AfterOne<T>(init: seq<Op<T>>, op: Op<T>)
    ensures After(init + [op]) == Step(After(init), op)
  {
    assert (init + [op])[..|init|] == init;
  }

  lemma FirstRan<T>(init: seq<Op<T>>)
    requires Stop !in init
    ensures After(init + [Stop]).ran == After(init).waiting
  {
    AfterOne(init, Stop);
    NothingRan(init);
  }

  lemma NothingRan<T>(ops: seq<Op<T>>)
    requires Stop !in ops
    ensures After(ops).ran == []
  {
    var ran := After(ops).ran;
    if ran != [] { ListMeaning(ops, ran[0]); }
  }

  lemma {:induction false} RunOrder<T>(ops: seq<Op<T>>, e: nat)
    requires OnceEach(ops) && FirstStop(ops, e)
    ensures RanInOrder(ops, After(ops).ran, e)
    decreases |ops|
  {
    if |ops| == e + 1 {
      OnceEachBefore(ops);
      FirstRuns(ops[..e]);
    } else {
      var init, op := ops[..|ops| - 1], ops[|ops| - 1];
      OnceEachBefore(ops);
      assert init[..e] == ops[..e] && init[e] == Stop;
      RunOrder(init, e);
      if op.Register? { NewCallback(init, op.callback); }
      AfterStop(init);
      RanLonger(init, op, After(init).ran, e);
      AfterOne(init, op);
      assert After(ops).ran == if op.Register? then After(init).ran + [op.callback] else After(init).ran;
    }
  }

  // ---------------------------------------------------------------- the list

  class StopCallbackNode {
    var next: StopCallbackNode?
    var prev: StopCallbackNode?

    constructor ()
      ensures next == null && prev == null
    {
      next, prev := null, null;
    }
  }

  ghost predicate LinkedAt(list: seq<StopCallbackNode>, i: int)
    requires 0 <= i < |list|
    reads list
  {
    list[i].prev == (if i == 0 then null else list[i - 1]) &&
    list[i].next == (if i == |list| - 1 then null else list[i + 1])
  }

  ghost predicate Linked(list: seq<StopCallbackNode>)
    reads list
  {
    Distinct(list) && forall i {:trigger LinkedAt(list, i)} :: 0 <= i < |list| ==> LinkedAt(list, i)
  }

  ghost function Head(list: seq<StopCallbackNode>): StopCallbackNode? { if list == [] then null else list[0] }

  /** The neighbours of callback i in the list without callback k. */
  ghost predicate PointsPast(list: seq<StopCallbackNode>, k: nat, i: int)
    requires k <= |list| && 0 <= i < |list| && i != k
    reads list
  {
    var before, after := if i - 1 == k then i - 2 else i - 1, if i + 1 == k then i + 2 else i + 1;
    list[i].prev == (if before < 0 then null else list[before]) &&
    list[i].next == (if after >= |list| then null else list[after])
  }

  ghost predicate PointPast(list: seq<StopCallbackNode>, k: nat)
    requires k <= |list|
    reads list
  {
    forall i {:trigger PointsPast(list, k, i)} :: 0 <= i < |list| && i != k ==> PointsPast(list, k, i)
  }

  lemma Rejoined(list: seq<StopCallbackNode>, k: nat)
    requires k <= |list| && Distinct(list) && PointPast(list, k)
    ensures Linked(Skipping(list, k))
  {
    var rest := Skipping(list, k);
    if k < |list| { WithoutDistinct(list, k); }
    forall i | 0 <= i < |rest| ensures LinkedAt(rest, i) { assert PointsPast(list, k, if i >= k then i + 1 else i); }
  }

  class StopState {
    var callbacks: StopCallbackNode?
    var cancelled: bool
    ghost var waiting: seq<StopCallbackNode>
    ghost var ran: seq<StopCallbackNode>

    ghost predicate Valid()
      reads this, waiting
    {
      Linked(waiting) && callbacks == Head(waiting)
    }

    ghost function View(): Registry<StopCallbackNode>
      reads this
    {
      Registry(waiting, cancelled, ran)
    }

    constructor ()
      ensures Valid() && View() == After([])
    {
      callbacks, cancelled, waiting, ran := null, false, [], [];
    }

    /** The neighbours of the callback at k, and the head of the list, point past it; a callback that is
        not in the list has no neighbours. */
    method Bypass(c: StopCallbackNode, ghost k: nat)
      requires Valid() && k <= |waiting|
      requires if k < |waiting| then waiting[k] == c else c !in waiting && c.prev == null && c.next == null
      modifies this`callbacks, waiting
      ensures callbacks == Head(Skipping(waiting, k)) && PointPast(waiting, k)
    {
      assert k < |waiting| ==> LinkedAt(waiting, k);
      if callbacks == c {
        callbacks := c.next;
      }
      if c.prev != null {
        c.prev.next := c.next;
      }
      if c.next != null {
        c.next.prev := c.prev;
      }
      forall i | 0 <= i < |waiting| && i != k ensures PointsPast(waiting, k, i) { assert old(LinkedAt(waiting, i)); }
    }

    /** Takes the callback out of the list, if it is there. */
    method Unlink(c: StopCallbackNode)
      requires Valid() && (c in waiting || (c.prev == null && c.next == null))
      modifies this`callbacks, this`waiting, waiting, c
      ensures Valid() && waiting == Without(old(waiting), c) && c.prev == null && c.next == null
    {
      ghost var k := IndexOf(waiting, c);
      Bypass(c, k);
      WithoutSkips(waiting, c, k);
      Rejoined(waiting, k);
      c.prev := null;
      c.next := null;
      waiting := Skipping(waiting, k);
      forall i | 0 <= i < |waiting| ensures LinkedAt(waiting, i) { assert waiting[i] != c; }
    }

    /** The callback runs and leaves the list. */
    method Execute(c: StopCallbackNode)
      requires Valid() && (c in waiting || (c.prev == null && c.next == null))
      modifies this`callbacks, this`waiting, this`ran, waiting, c
      ensures Valid() && waiting == Without(old(waiting), c) && ran == old(ran) + [c]
      ensures c.prev == null && c.next == null
    {
      ran := ran + [c];
      Unlink(c);
    }

    /** The constructor of a callback. */
    method Register(c: StopCallbackNode)
      requires Valid() && c !in waiting && c.prev == null && c.next == null
      modifies this`callbacks, this`waiting, this`ran, waiting, c
      ensures Valid() && View() == Registered(old(View()), c)
      ensures c in waiting || (c.prev == null && c.next == null)
    {
      if cancelled {
        Execute(c);
        WithoutAbsent(old(waiting), c);
        return;
      }
      if callbacks == null {
        callbacks := c;
      } else {
        callbacks.prev := c;
        c.next := callbacks;
        callbacks := c;
      }
      waiting := [c] + waiting;
      forall i | 0 <= i < |waiting| ensures LinkedAt(waiting, i) {
        if i > 0 { assert waiting[i] == old(waiting)[i - 1] && old(LinkedAt(waiting, i - 1)); }
      }
    }

    /** The destructor of a callback. */
    method Destroy(c: StopCallbackNode)
      requires Valid() && (c in waiting || (c.prev == null && c.next == null))
      modifies this`callbacks, this`waiting, waiting, c
      ensures Valid() && View() == Destroyed(old(View()), c) && c.prev == null && c.next == null
    {
      Unlink(c);
    }

    /** Runs the callback at the head of the list. */
    method StopOne(ghost all: seq<StopCallbackNode>, ghost k: nat)
      requires Valid() && callbacks != null && k < |all| && waiting == all[k..] && Distinct(all)
      modifies this`callbacks, this`waiting, this`ran, waiting
      ensures Valid() && waiting == all[k + 1..] && ran == old(ran) + [all[k]]
      ensures all[k].prev == null && all[k].next == null
    {
      WithoutAt(waiting, 0);
      Execute(callbacks);
    }

    method Stop()
      requires Valid()
      modifies this, waiting
      ensures Valid() && View() == Stopped(old(View())) && callbacks == null
      ensures forall c :: c in old(waiting) ==> c.prev == null && c.next == null
    {
      cancelled := true;
      ghost var all, before := waiting, ran;
      ghost var k := 0;
      while callbacks != null
        invariant 0 <= k <= |all| && waiting == all[k..] && ran == before + all[..k] && Valid()
        invariant cancelled && Distinct(all)
        invariant forall i :: 0 <= i < k ==> all[i].prev == null && all[i].next == null
        decreases |waiting|
      {
        StopOne(all, k);
        k := k + 1;
      }
    }
  }

  ghost function Callbacks(ops: seq<Op<StopCallbackNode>>): set<StopCallbackNode> {
    set op | op in ops && !op.Stop? :: op.callback
  }

  ghost predicate InOrAlone(state: StopState, nodes: set<StopCallbackNode>)
    reads state, nodes
  {
    (forall c :: c in state.waiting ==> c in nodes) &&
    (forall c :: c in nodes ==> c in state.waiting || (c.prev == null && c.next == null))
  }

  method PerformOne(state: StopState, op: Op<StopCallbackNode>, ghost nodes: set<StopCallbackNode>)
    requires state.Valid() && InOrAlone(state, nodes)
    requires op.Stop? || op.callback in nodes
    requires op.Register? ==> op.callback !in state.waiting
    modifies state, nodes
    ensures state.Valid() && InOrAlone(state, nodes) && state.View() == Step(old(state.View()), op)
  {
    match op {
      case Register(c) =>
        state.Register(c);
      case Destroy(c) =>
        ghost var before := state.waiting;
        state.Destroy(c);
        WithoutElements(before, c);
        assert forall x :: x in state.waiting ==> x in before;
      case Stop =>
        state.Stop();
    }
  }

  /** Any sequence of registrations, destructions and stops on one state. */
  method Perform(ops: seq<Op<StopCallbackNode>>) returns (state: StopState)
    requires OnceEach(ops)
    requires forall c :: c in Callbacks(ops) ==> c.prev == null && c.next == null
    modifies Callbacks(ops)
    ensures fresh(state) && state.Valid() && state.View() == After(ops)
  {
    state := new StopState();
    ghost var nodes := Callbacks(ops);
    var k := 0;
    while k < |ops|
      invariant 0 <= k <= |ops| && fresh(state) && state.Valid() && state.View() == After(ops[..k])
      invariant InOrAlone(state, nodes)
    {
      assert ops[..k + 1][..k] == ops[..k];
      if ops[k].Register? { NewCallback(ops[..k], ops[k].callback); }
      PerformOne(state, ops[k], nodes);
      k := k + 1;
    }
    assert ops[..k] == ops;
  }
}
