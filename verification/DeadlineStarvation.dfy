/**
  The bound on starvation is met for all tunables.  A read inserted at the sector of another
  displaces it and so opens a batch that no dispatch has been charged for; from there on reads
  are picked in sector order until the write has waited as long as it may.
*/
module DeadlineStarvation {
  import opened NumberLists
  import opened Deadline
  import opened DeadlineInvariants

  /** lo, lo + 1, ..., hi - 1. */
  function Range(lo: nat, hi: nat): (r: seq<Id>)
    requires lo <= hi
    ensures |r| == hi - lo && forall i | 0 <= i < |r| :: r[i] == lo + i
    ensures forall x :: x in r <==> lo <= x < hi
  {
    if lo == hi then [] else Range(lo, hi - 1) + [hi - 1]
  }

  /** Read i is at sector i. */
  function Reads(c: Tunables, n: nat): (m: map<Id, Req>)
    ensures forall x: nat :: x in m <==> x < n
    ensures forall x: nat | x < n :: m[x] == Req(false, x, x + 1, c.readExpire)
  {
    if n == 0 then map[] else Reads(c, n - 1)[n - 1 := Req(false, n - 1, n, c.readExpire)]
  }

  /** The reads below n have been added. */
  function Queued(c: Tunables, n: nat): (s: State) {
    State(Reads(c, n), 0, Lists(Range(0, n), Range(0, n), None), Lists([], [], None), 0, 0, n, [])
  }

  lemma QueuedValid(c: Tunables, n: nat)
    ensures Valid(Queued(c, n)) && !Holds(Queued(c, n), n)
  {
  }

  lemma QueuedNext(c: Tunables, n: nat)
    requires Valid(Queued(c, n)) && !Holds(Queued(c, n), n)
    ensures Add(c, Queued(c, n), n, false, n, n + 1) == Queued(c, n + 1)
  {
    var s := Queued(c, n);
    var m := s.rq[n := Req(false, n, n + 1, c.readExpire)];
    assert m == Reads(c, n + 1);
    assert Place(m, s.read.tree, n) == n;
    assert InsertAt(s.read.tree, n, n) == Range(0, n + 1);
    assert s.read.fifo + [n] == Range(0, n + 1);
  }

  /** Reads 0 to n and the write n + 1. */
  function Blocked(c: Tunables, n: nat): (s: State) {
    var s := Queued(c, n + 1);
    s.(rq := s.rq[n + 1 := Req(true, 0, 1, c.writeExpire)], write := Lists([n + 1], [n + 1], None), sorted := n + 2)
  }

  lemma BlockedNext(c: Tunables, n: nat)
    requires Valid(Queued(c, n + 1)) && !Holds(Queued(c, n + 1), n + 1)
    ensures Add(c, Queued(c, n + 1), n + 1, true, 0, 1) == Blocked(c, n)
  {
  }

  /** All requests, once read n + 2 has come in at the sector of read 0. */
  function AllRequests(c: Tunables, n: nat): (m: map<Id, Req>) {
    Blocked(c, n).rq[n + 2 := Req(false, 0, 1, c.readExpire)]
  }

  /** Read 0 has been displaced by read n + 2, and the reads up to k have been picked. */
  function Going(c: Tunables, n: nat, k: nat, batching: nat, starved: nat): (s: State)
    requires k <= n
  {
    State(AllRequests(c, n), 0,
          Lists([n + 2] + Range(k + 1, n + 1), Range(k + 1, n + 1) + [n + 2], if k < n then Some(k + 1) else None),
          Lists([n + 1], [n + 1], None), batching, starved, n + 2 - k, Range(0, k + 1))
  }

  lemma BlockedValid(c: Tunables, n: nat)
    ensures Valid(Blocked(c, n)) && !Holds(Blocked(c, n), n + 2)
  {
  }

  lemma RangeFirst(lo: nat, hi: nat)
    requires lo < hi
    ensures Range(lo, hi) == [lo] + Range(lo + 1, hi) && Index(Range(lo, hi), lo) == 0
    ensures Without(Range(lo, hi), lo) == Range(lo + 1, hi)
    ensures Latter(Range(lo, hi), lo) == if lo + 1 < hi then Some(lo + 1) else None
  {
    hide Range;
    var r := Range(lo, hi);
    assert r[0] == lo && r[..0] + r[1..] == Range(lo + 1, hi);
    assert r == [lo] + Range(lo + 1, hi);
  }

  /** Read 0 is dispatched to make room. */
  lemma DisplacedMove(c: Tunables, n: nat)
    ensures var s := Blocked(c, n).(rq := AllRequests(c, n), sorted := n + 3);
            var t := Going(c, n, 0, 0, 0);
            && Linked(s, 0)
            && Move(s, 0) == t.(read := Lists(Range(1, n + 1), Range(1, n + 1), t.read.next))
  {
    hide Range, Reads, Without, Index;
    RangeFirst(0, n + 1);
    assert [] + [0] == Range(0, 1);
  }

  lemma DisplacedPlaces(c: Tunables, n: nat)
    ensures var m := AllRequests(c, n);
            && Known(m, Range(0, n + 1)) && Alias(m, Range(0, n + 1), 0) == Some(0)
            && Known(m, Range(1, n + 1)) && Place(m, Range(1, n + 1), 0) == 0
  {
    var m := AllRequests(c, n);
    assert Place(m, Range(0, n + 1), 0) == 0;
    assert Place(m, Range(1, n + 1), 0) == 0;
  }

  lemma DisplacedNext(c: Tunables, n: nat)
    requires Valid(Blocked(c, n)) && !Holds(Blocked(c, n), n + 2)
    ensures Add(c, Blocked(c, n), n + 2, false, 0, 1) == Going(c, n, 0, 0, 0)
  {
    hide Valid, Holds, Place, Alias, Move, Range, Reads;
    DisplacedMove(c, n);
    DisplacedPlaces(c, n);
    assert InsertAt(Range(1, n + 1), 0, n + 2) == [n + 2] + Range(1, n + 1);
  }

  // --------------------------------------------------------------- picking

  /** The counters behind one more read. */
  function NextBatching(c: Tunables, batching: nat): (b: nat) {
    if batching < c.batch then batching + 1 else 1
  }

  function NextStarved(c: Tunables, batching: nat, starved: nat): (s: nat) {
    if batching < c.batch then starved else starved + 1
  }

  /** The patience left, which the next read takes one of. */
  function Left(c: Tunables, batching: nat, starved: nat): (p: nat) {
    (if starved < c.starved then (c.starved - starved) * Batch(c) else 0) +
    (if batching < c.batch then c.batch - batching else 0)
  }

  lemma LeftNext(c: Tunables, batching: nat, starved: nat)
    requires starved <= c.starved && Left(c, batching, starved) > 0
    ensures NextStarved(c, batching, starved) <= c.starved
    ensures Left(c, NextBatching(c, batching), NextStarved(c, batching, starved)) == Left(c, batching, starved) - 1
    ensures batching >= c.batch ==> starved < c.starved
  {
    assert (c.starved - starved) * Batch(c) == (c.starved - starved - 1) * Batch(c) + Batch(c);
  }

  lemma GoingValid(c: Tunables, n: nat, k: nat, batching: nat, starved: nat)
    requires k <= n
    ensures Valid(Going(c, n, k, batching, starved))
  {
    hide Range, Reads;
    var s := Going(c, n, k, batching, starved);
    assert forall i | 0 <= i < n - k :: s.read.tree[i + 1] == k + 1 + i && s.read.fifo[i] == k + 1 + i;
  }

  lemma GoingMove(c: Tunables, n: nat, k: nat, batching: nat, starved: nat)
    requires k < n
    ensures var s := Going(c, n, k, batching, starved);
            Linked(s, k + 1) && Move(s, k + 1) == Going(c, n, k + 1, batching, starved)
  {
    hide Range, Reads;
    var s := Going(c, n, k, batching, starved);
    GoingTree(n, k);
    GoingFifo(n, k);
    assert Range(0, k + 1) + [k + 1] == Range(0, k + 2);
  }

  lemma GoingTree(n: nat, k: nat)
    requires k < n
    ensures var tree := [n + 2] + Range(k + 1, n + 1);
            && k + 1 in tree && Without(tree, k + 1) == [n + 2] + Range(k + 2, n + 1)
            && Latter(tree, k + 1) == if k + 1 < n then Some(k + 2) else None
  {
    hide Range;
    var tree := [n + 2] + Range(k + 1, n + 1);
    assert tree[1] == k + 1 && tree[1..][0] == k + 1;
    assert Index(tree, k + 1) == 1 + Index(tree[1..], k + 1) == 1;
    assert tree[..1] + tree[2..] == [n + 2] + Range(k + 2, n + 1);
  }

  lemma GoingFifo(n: nat, k: nat)
    requires k < n
    ensures var fifo := Range(k + 1, n + 1) + [n + 2];
            k + 1 in fifo && Without(fifo, k + 1) == Range(k + 2, n + 1) + [n + 2]
  {
    hide Range;
    var fifo := Range(k + 1, n + 1) + [n + 2];
    assert fifo[0] == k + 1 && Index(fifo, k + 1) == 0;
    assert fifo[..0] + fifo[1..] == Range(k + 2, n + 1) + [n + 2];
  }

  lemma GoingStep(c: Tunables, n: nat, k: nat, batching: nat, starved: nat)
    requires k < n && starved <= c.starved && Left(c, batching, starved) > 0
    requires Valid(Going(c, n, k, batching, starved))
    ensures var s := Going(c, n, k, batching, starved);
            && PicksRead(c, s)
            && Dispatch(c, s) == Going(c, n, k + 1, NextBatching(c, batching), NextStarved(c, batching, starved))
  {
    hide Range, Reads, Move, Valid;
    var s := Going(c, n, k, batching, starved);
    LeftNext(c, batching, starved);
    ValidKnows(s);
    assert s.read.fifo[0] in s.read.fifo;
    GoingMove(c, n, k, NextBatching(c, batching), NextStarved(c, batching, starved));
  }

  // ------------------------------------------------------------- the run

  /** A run in which a write waits while n reads are picked. */
  ghost predicate Passes(c: Tunables, s: State, events: seq<Event>, n: nat) {
    Valid(s) && Feasible(c, s, events) && WritesWait(c, s, events) && Dispatches(events) == n
  }

  lemma PassesMore(c: Tunables, s: State, e: Event, t: State, events: seq<Event>, n: nat)
    requires Valid(s) && Enabled(s, e) && Step(c, s, e) == t && Passes(c, t, events, n)
    requires e.Dispatching? ==> PicksRead(c, s)
    ensures Passes(c, s, [e] + events, if e.Dispatching? then n + 1 else n)
  {
    hide Valid, Enabled, Step, PicksRead;
    assert ([e] + events)[1..] == events;
  }

  lemma {:induction false} GoingPasses(c: Tunables, n: nat, k: nat, batching: nat, starved: nat) returns (events: seq<Event>)
    requires k <= n && starved <= c.starved && Left(c, batching, starved) == n - k
    ensures Passes(c, Going(c, n, k, batching, starved), events, n - k)
    decreases n - k
  {
    hide Passes, Going, Left;
    GoingValid(c, n, k, batching, starved);
    if k == n {
      events := [];
      NothingPasses(c, Going(c, n, k, batching, starved));
    } else {
      LeftNext(c, batching, starved);
      GoingStep(c, n, k, batching, starved);
      var rest := GoingPasses(c, n, k + 1, NextBatching(c, batching), NextStarved(c, batching, starved));
      events := [Dispatching] + rest;
      PassesMore(c, Going(c, n, k, batching, starved), Dispatching,
                 Going(c, n, k + 1, NextBatching(c, batching), NextStarved(c, batching, starved)), rest, n - k - 1);
    }
  }

  lemma NothingPasses(c: Tunables, s: State)
    requires Valid(s)
    ensures Passes(c, s, [], 0)
  {
  }

  /** The reads that are not yet queued are added one by one. */
  lemma {:induction false} QueuedPasses(c: Tunables, k: nat, n: nat, events: seq<Event>, m: nat) returns (all: seq<Event>)
    requires k <= n && Passes(c, Queued(c, n), events, m)
    ensures Passes(c, Queued(c, k), all, m)
    decreases n - k
  {
    hide Passes, Queued;
    if k == n {
      all := events;
    } else {
      var rest := QueuedPasses(c, k + 1, n, events, m);
      QueuedValid(c, k);
      QueuedNext(c, k);
      all := [Adding(k, false, k, k + 1)] + rest;
      PassesMore(c, Queued(c, k), Adding(k, false, k, k + 1), Queued(c, k + 1), rest, m);
    }
  }

  /** For all tunables there is a run in which a pending write is passed over as often as the bound allows. */
  lemma StarvationBoundMet(c: Tunables) returns (events: seq<Event>)
    ensures Valid(Init()) && Feasible(c, Init(), events)
    ensures WritesWait(c, Init(), events) && Dispatches(events) == Bound(c)
  {
    hide Queued, Blocked, Going, Valid, Holds, Add;
    var n := Bound(c);
    LeftAtFirst(c);
    var going := GoingPasses(c, n, 0, 0, 0);
    BlockedValid(c, n);
    DisplacedNext(c, n);
    PassesMore(c, Blocked(c, n), Adding(n + 2, false, 0, 1), Going(c, n, 0, 0, 0), going, n);
    var displaced := [Adding(n + 2, false, 0, 1)] + going;
    QueuedValid(c, n + 1);
    BlockedNext(c, n);
    PassesMore(c, Queued(c, n + 1), Adding(n + 1, true, 0, 1), Blocked(c, n), displaced, n);
    events := QueuedPasses(c, 0, n + 1, [Adding(n + 1, true, 0, 1)] + displaced, n);
    NoneQueued(c);
  }

  lemma LeftAtFirst(c: Tunables)
    ensures Left(c, 0, 0) == Bound(c)
  {
  }

  lemma NoneQueued(c: Tunables)
    ensures Queued(c, 0) == Init()
  {
  }
}
