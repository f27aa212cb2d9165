/**
  The deadline I/O scheduler with the part of the elevator core that drives it.

  A request is known by a number.  An rb-tree is the sequence of its requests in sector order,
  the clock is unbounded, and the tunables are fixed.
*/
module Deadline {
  import opened NumberLists

  type Id = nat

  datatype Req = Req(write: bool, pos: nat, end: nat, expires: nat)

  /** sort_list, fifo_list and next_rq of one direction. */
  datatype Lists = Lists(tree: seq<Id>, fifo: seq<Id>, next: Option<Id>)

  /** `starved` and `batch` are the unsigned values that the comparisons see. */
  datatype Tunables = Tunables(readExpire: nat, writeExpire: nat, starved: nat, batch: nat)

  datatype State = State(rq: map<Id, Req>, now: nat, read: Lists, write: Lists, batching: nat, starved: nat,
                         sorted: int, dispatched: seq<Id>)

  function Side(s: State, write: bool): (l: Lists) {
    if write then s.write else s.read
  }

  function WithSide(s: State, write: bool, l: Lists): (t: State) {
    if write then s.(write := l) else s.(read := l)
  }

  function Expire(c: Tunables, write: bool): (d: nat) {
    if write then c.writeExpire else c.readExpire
  }

  // ---------------------------------------------------------------- lists

  /** rb_next. */
  function Latter(tree: seq<Id>, x: Id): (n: Option<Id>)
    requires x in tree
  {
    var i := Index(tree, x) + 1;
    if i < |tree| then Some(tree[i]) else None
  }

  ghost predicate Known(m: map<Id, Req>, q: seq<Id>) {
    forall x | x in q :: x in m
  }

  /** Where a request at sector `pos` belongs in the tree. */
  function PlaceFrom(m: map<Id, Req>, tree: seq<Id>, pos: nat, i: nat): (p: nat)
    requires Known(m, tree) && i <= |tree| && forall j | 0 <= j < i :: m[tree[j]].pos < pos
    ensures i <= p <= |tree| && (forall j | 0 <= j < p :: m[tree[j]].pos < pos)
    ensures p < |tree| ==> pos <= m[tree[p]].pos
    decreases |tree| - i
  {
    if i == |tree| || pos <= m[tree[i]].pos then i else PlaceFrom(m, tree, pos, i + 1)
  }

  function Place(m: map<Id, Req>, tree: seq<Id>, pos: nat): (p: nat)
    requires Known(m, tree)
    ensures p <= |tree| && (forall j | 0 <= j < p :: m[tree[j]].pos < pos)
    ensures p < |tree| ==> pos <= m[tree[p]].pos
  {
    PlaceFrom(m, tree, pos, 0)
  }

  /** The request that elv_rb_add finds at the same sector. */
  function Alias(m: map<Id, Req>, tree: seq<Id>, pos: nat): (a: Option<Id>)
    requires Known(m, tree)
    ensures a.Some? ==> a.value in tree && m[a.value].pos == pos
  {
    var p := Place(m, tree, pos);
    if p < |tree| && m[tree[p]].pos == pos then Some(tree[p]) else None
  }

  // ------------------------------------------------------- one direction

  /** The tree is ordered by sector and holds requests of one direction. */
  ghost predicate Tree(m: map<Id, Req>, tree: seq<Id>, write: bool) {
    && Known(m, tree)
    && (forall x | x in tree :: m[x].write == write)
    && (forall i, j | 0 <= i < j < |tree| :: m[tree[i]].pos < m[tree[j]].pos)
  }

  /** deadline_remove_request. */
  function Drop(l: Lists, x: Id): (r: Lists)
    requires x in l.tree && x in l.fifo
  {
    Lists(Without(l.tree, x), Without(l.fifo, x), if l.next == Some(x) then Latter(l.tree, x) else l.next)
  }

  /** What deadline_move_request does to the direction of the request. */
  function MoveOut(l: Lists, x: Id): (r: Lists)
    requires x in l.tree && x in l.fifo
  {
    Drop(l.(next := Latter(l.tree, x)), x)
  }

  /** elv_rb_add once no request is in the way. */
  function Link(m: map<Id, Req>, l: Lists, x: Id): (r: Lists)
    requires x in m && Known(m, l.tree)
  {
    l.(tree := InsertAt(l.tree, Place(m, l.tree, m[x].pos), x))
  }

  lemma TreeDistinct(m: map<Id, Req>, tree: seq<Id>, write: bool)
    requires Tree(m, tree, write)
    ensures Distinct(tree)
  {
  }

  lemma TreeRemoved(m: map<Id, Req>, tree: seq<Id>, write: bool, x: Id)
    requires Tree(m, tree, write) && x in tree
    ensures Tree(m, Without(tree, x), write)
    ensures forall y :: y in Without(tree, x) <==> y in tree && y != x
  {
    TreeDistinct(m, tree, write);
    Removed(tree, Index(tree, x));
  }

  // --------------------------------------------------------------- states

  ghost predicate Good(m: map<Id, Req>, l: Lists, write: bool) {
    && Tree(m, l.tree, write)
    && Distinct(l.fifo)
    && (forall x :: x in l.fifo <==> x in l.tree)
    && (l.next.Some? ==> l.next.value in l.tree)
  }

  /**
    What every reachable state satisfies: in each direction tree and FIFO hold the same requests
    and next_rq is one of them, a batch runs in one direction only, and nr_sorted is the number
    of requests held.
  */
  ghost predicate Valid(s: State) {
    && Good(s.rq, s.read, false)
    && Good(s.rq, s.write, true)
    && (s.read.next.None? || s.write.next.None?)
    && s.sorted == |s.read.tree| + |s.write.tree|
  }

  ghost predicate Holds(s: State, x: Id) {
    x in s.read.tree || x in s.write.tree
  }

  /** A request that deadline_move_request may be given: linked into both lists of its direction. */
  ghost predicate Linked(s: State, x: Id) {
    x in s.rq && x in Side(s, s.rq[x].write).tree && x in Side(s, s.rq[x].write).fifo
  }

  /** deadline_move_request followed by elv_dispatch_add_tail. */
  function Move(s: State, x: Id): (t: State)
    requires Linked(s, x)
  {
    var s' := s.(sorted := s.sorted - 1, dispatched := s.dispatched + [x]);
    if s.rq[x].write then s'.(write := MoveOut(s.write, x), read := s.read.(next := None))
    else s'.(read := MoveOut(s.read, x), write := s.write.(next := None))
  }

  /** The tree that x is about to enter. */
  ghost predicate Open(s: State, x: Id) {
    && x in s.rq
    && var l := Side(s, s.rq[x].write);
       Tree(s.rq, l.tree, s.rq[x].write) && forall y | y in l.tree :: y in l.fifo
  }

  /** deadline_add_rq_rb: a request at the same sector is dispatched to make room. */
  function AddRb(s: State, x: Id): (t: State)
    requires Open(s, x)
  {
    var w := s.rq[x].write;
    var a := Alias(s.rq, Side(s, w).tree, s.rq[x].pos);
    var t := if a.None? then s else Move(s, a.value);
    WithSide(t, w, Link(s.rq, Side(t, w), x))
  }

  /** elv_insert with ELEVATOR_INSERT_SORT, then deadline_add_request. */
  function Add(c: Tunables, s: State, x: Id, write: bool, pos: nat, end: nat): (t: State)
    requires Valid(s) && !Holds(s, x)
  {
    var s0 := s.(rq := s.rq[x := Req(write, pos, end, s.now + Expire(c, write))], sorted := s.sorted + 1);
    var s1 := AddRb(s0, x);
    var l := Side(s1, write);
    WithSide(s1, write, l.(fifo := l.fifo + [x]))
  }

  /** deadline_merged_request after a front merge, which has moved the request to sector `pos`. */
  function FrontMerged(s: State, x: Id, pos: nat): (t: State)
    requires Valid(s) && Holds(s, x)
  {
    var w := s.rq[x].write;
    var l := Side(s, w);
    TreeRemoved(s.rq, l.tree, w, x);
    var m := s.rq[x := s.rq[x].(pos := pos)];
    var l' := l.(tree := Without(l.tree, x));
    assert Tree(m, l'.tree, w);
    AddRb(WithSide(s, w, l').(rq := m), x)
  }

  function BackMerged(s: State, x: Id, end: nat): (t: State)
    requires Valid(s) && Holds(s, x)
  {
    s.(rq := s.rq[x := s.rq[x].(end := end)])
  }

  /** list_move of x behind n. */
  function MoveBehind(q: seq<Id>, x: Id, n: Id): (r: seq<Id>)
    requires x in q && n in Without(q, x)
  {
    var q' := Without(q, x);
    InsertAt(q', Index(q', n) + 1, x)
  }

  /** elv_merge_requests with deadline_merged_requests: x takes over n, and its place if it is due earlier. */
  function MergedRequests(s: State, x: Id, n: Id): (t: State)
    requires Valid(s) && Holds(s, x) && Holds(s, n) && x != n && s.rq[x].write == s.rq[n].write
  {
    var w := s.rq[x].write;
    var l := Side(s, w);
    Removed(l.fifo, Index(l.fifo, x));
    var early := s.rq[n].expires < s.rq[x].expires;
    var fifo := if early then MoveBehind(l.fifo, x, n) else l.fifo;
    var req := s.rq[x].(end := s.rq[n].end, expires := if early then s.rq[n].expires else s.rq[x].expires);
    WithSide(s, w, Drop(l.(fifo := fifo), n)).(rq := s.rq[x := req], sorted := s.sorted - 1)
  }

  // ------------------------------------------------------------- dispatch

  datatype Choice = Nothing | Choice(x: Id, batching: nat, starved: nat)

  /** deadline_check_fifo. */
  predicate Expired(s: State, l: Lists)
    requires l.fifo != [] && Known(s.rq, l.fifo)
  {
    s.rq[l.fifo[0]].expires < s.now
  }

  function Best(s: State, l: Lists): (x: Id)
    requires l.fifo != [] && Known(s.rq, l.fifo)
  {
    if Expired(s, l) || l.next.None? then l.fifo[0] else l.next.value
  }

  /** A batch is under way and entitled to go on. */
  predicate Continues(c: Tunables, s: State) {
    (s.write.next.Some? || s.read.next.Some?) && s.batching < c.batch
  }

  function Choose(c: Tunables, s: State): (d: Choice)
    requires Known(s.rq, s.read.fifo) && Known(s.rq, s.write.fifo)
  {
    var next := if s.write.next.Some? then s.write.next else s.read.next;
    if Continues(c, s) then Choice(next.value, s.batching + 1, s.starved)
    else if s.read.fifo != [] && !(s.write.fifo != [] && s.starved >= c.starved) then
      Choice(Best(s, s.read), 1, if s.write.fifo != [] then s.starved + 1 else s.starved)
    else if s.write.fifo != [] then Choice(Best(s, s.write), 1, 0)
    else Nothing
  }

  /** deadline_dispatch_requests. */
  function Dispatch(c: Tunables, s: State): (t: State)
    requires Valid(s)
  {
    var d := Choose(c, s);
    assert d.Choice? ==> Linked(s, d.x);
    if d.Nothing? then s else Move(s.(batching := d.batching, starved := d.starved), d.x)
  }

  // ----------------------------------------------------------------- runs

  datatype Event =
    | Adding(x: Id, write: bool, pos: nat, end: nat)
    | FrontMerging(x: Id, pos: nat)
    | BackMerging(x: Id, end: nat)
    | Merging(x: Id, n: Id)
    | Dispatching
    | Ticking(now: nat)

  /** What the callers guarantee: a new request is not queued, merges are within one direction. */
  ghost predicate Enabled(s: State, e: Event) {
    match e
    case Adding(x, _, _, _) => !Holds(s, x)
    case FrontMerging(x, _) => Holds(s, x)
    case BackMerging(x, _) => Holds(s, x)
    case Merging(x, n) =>
      Holds(s, x) && Holds(s, n) && x != n && x in s.rq && n in s.rq && s.rq[x].write == s.rq[n].write
    case Dispatching => true
    case Ticking(now) => s.now <= now
  }

  ghost function Step(c: Tunables, s: State, e: Event): (t: State)
    requires Valid(s) && Enabled(s, e)
  {
    match e
    case Adding(x, write, pos, end) => Add(c, s, x, write, pos, end)
    case FrontMerging(x, pos) => FrontMerged(s, x, pos)
    case BackMerging(x, end) => BackMerged(s, x, end)
    case Merging(x, n) => MergedRequests(s, x, n)
    case Dispatching => Dispatch(c, s)
    case Ticking(now) => s.(now := now)
  }

  function Init(): (s: State) {
    State(map[], 0, Lists([], [], None), Lists([], [], None), 0, 0, 0, [])
  }
}

module DeadlineInvariants {
  import opened NumberLists
  import opened Deadline

  lemma LatterStays(m: map<Id, Req>, tree: seq<Id>, write: bool, x: Id)
    requires Tree(m, tree, write) && x in tree
    ensures Latter(tree, x).Some? ==> Latter(tree, x).value in tree && Latter(tree, x).value != x
  {
  }

  lemma DropGood(m: map<Id, Req>, l: Lists, write: bool, x: Id)
    requires Good(m, l, write) && x in l.tree
    ensures Good(m, Drop(l, x), write)
    ensures |Drop(l, x).tree| == |l.tree| - 1
  {
    TreeRemoved(m, l.tree, write, x);
    LatterStays(m, l.tree, write, x);
    Removed(l.fifo, Index(l.fifo, x));
  }

  lemma InsertedOrder(m: map<Id, Req>, tree: seq<Id>, p: nat, x: Id)
    requires Known(m, tree) && x in m && p <= |tree|
    requires forall i, j | 0 <= i < j < |tree| :: m[tree[i]].pos < m[tree[j]].pos
    requires forall i | 0 <= i < p :: m[tree[i]].pos < m[x].pos
    requires p < |tree| ==> m[x].pos < m[tree[p]].pos
    ensures Known(m, InsertAt(tree, p, x))
    ensures var r := InsertAt(tree, p, x); forall i, j | 0 <= i < j < |r| :: m[r[i]].pos < m[r[j]].pos
  {
    var r := InsertAt(tree, p, x);
    Inserted(tree, p, x);
    forall i, j | 0 <= i < j < |r|
      ensures m[r[i]].pos < m[r[j]].pos
    {
      assert r[i] == if i < p then tree[i] else if i == p then x else tree[i - 1];
      assert r[j] == if j < p then tree[j] else if j == p then x else tree[j - 1];
    }
  }

  /** elv_rb_add keeps the order when no request is at the same sector. */
  lemma TreeLinked(m: map<Id, Req>, tree: seq<Id>, write: bool, x: Id)
    requires Tree(m, tree, write) && x in m && m[x].write == write && Alias(m, tree, m[x].pos).None?
    ensures Tree(m, InsertAt(tree, Place(m, tree, m[x].pos), x), write)
    ensures forall y :: y in InsertAt(tree, Place(m, tree, m[x].pos), x) <==> y in tree || y == x
  {
    InsertedOrder(m, tree, Place(m, tree, m[x].pos), x);
    Inserted(tree, Place(m, tree, m[x].pos), x);
  }

  /** Sectors are unique, so one dispatched alias makes room. */
  lemma NoSecondAlias(m: map<Id, Req>, tree: seq<Id>, write: bool, pos: nat)
    requires Tree(m, tree, write) && Alias(m, tree, pos).Some?
    ensures Tree(m, Without(tree, Alias(m, tree, pos).value), write)
    ensures Alias(m, Without(tree, Alias(m, tree, pos).value), pos).None?
  {
    TreeRemoved(m, tree, write, Alias(m, tree, pos).value);
    var t := Without(tree, Alias(m, tree, pos).value);
    assert forall y | y in t :: m[y].pos != pos;
  }

  /** One direction while x is being linked: it may already be in the FIFO, and be next_rq. */
  ghost predicate Opened(m: map<Id, Req>, l: Lists, write: bool, x: Id) {
    && x in m && m[x].write == write && x !in l.tree
    && Tree(m, l.tree, write)
    && Distinct(l.fifo)
    && (forall y | y in l.tree :: y in l.fifo)
    && (forall y | y in l.fifo :: y in l.tree || y == x)
    && (l.next.Some? ==> l.next.value in l.tree || l.next.value == x)
  }

  ghost predicate Closed(m: map<Id, Req>, l: Lists, write: bool, x: Id) {
    && Tree(m, l.tree, write)
    && Distinct(l.fifo)
    && (forall y :: y in l.tree <==> y in l.fifo || y == x)
    && (l.next.Some? ==> l.next.value in l.tree)
  }

  lemma MoveOutOpened(m: map<Id, Req>, l: Lists, write: bool, x: Id, a: Id)
    requires Opened(m, l, write, x) && a in l.tree
    ensures Opened(m, MoveOut(l, a), write, x)
    ensures |MoveOut(l, a).tree| == |l.tree| - 1
    ensures forall y :: y in MoveOut(l, a).fifo <==> y in l.fifo && y != a
  {
    TreeRemoved(m, l.tree, write, a);
    LatterStays(m, l.tree, write, a);
    Removed(l.fifo, Index(l.fifo, a));
  }

  lemma LinkClosed(m: map<Id, Req>, l: Lists, write: bool, x: Id)
    requires Opened(m, l, write, x) && Alias(m, l.tree, m[x].pos).None?
    ensures Closed(m, Link(m, l, x), write, x)
    ensures |Link(m, l, x).tree| == |l.tree| + 1
  {
    TreeLinked(m, l.tree, write, x);
  }

  /** The other direction when the batch ends. */
  lemma UnsetGood(m: map<Id, Req>, l: Lists, write: bool)
    requires Good(m, l, write)
    ensures Good(m, l.(next := None), write)
  {
  }

  /** deadline_add_rq_rb on a state in which only x is out of place. */
  lemma AddRbClosed(s: State, x: Id)
    requires x in s.rq
    requires var w := s.rq[x].write; Opened(s.rq, Side(s, w), w, x) && Good(s.rq, Side(s, !w), !w)
    requires s.read.next.None? || s.write.next.None?
    ensures Open(s, x)
    ensures var w, t := s.rq[x].write, AddRb(s, x);
            Closed(s.rq, Side(t, w), w, x) && Good(s.rq, Side(t, !w), !w)
    ensures var t := AddRb(s, x); t.read.next.None? || t.write.next.None?
    ensures var t := AddRb(s, x);
            t.sorted - |t.read.tree| - |t.write.tree| == s.sorted - |s.read.tree| - |s.write.tree| - 1
    ensures var w, t := s.rq[x].write, AddRb(s, x); x in Side(t, w).fifo <==> x in Side(s, w).fifo
    ensures AddRb(s, x).rq == s.rq
  {
    var w := s.rq[x].write;
    var l := Side(s, w);
    var a := Alias(s.rq, l.tree, s.rq[x].pos);
    if a.None? {
      LinkClosed(s.rq, l, w, x);
    } else {
      MoveOutOpened(s.rq, l, w, x, a.value);
      NoSecondAlias(s.rq, l.tree, w, s.rq[x].pos);
      LinkClosed(s.rq, MoveOut(l, a.value), w, x);
      UnsetGood(s.rq, Side(s, !w), !w);
    }
  }

  /** The lists only depend on the sectors and directions of what they hold. */
  ghost predicate Alike(m: map<Id, Req>, m': map<Id, Req>, q: seq<Id>) {
    forall x | x in q :: x in m && x in m' && m[x].write == m'[x].write && m[x].pos == m'[x].pos
  }

  lemma TreeAlike(m: map<Id, Req>, m': map<Id, Req>, tree: seq<Id>, write: bool)
    requires Tree(m, tree, write) && Alike(m, m', tree)
    ensures Tree(m', tree, write)
  {
  }

  lemma GoodAlike(m: map<Id, Req>, m': map<Id, Req>, l: Lists, write: bool)
    requires Good(m, l, write) && Alike(m, m', l.tree)
    ensures Good(m', l, write)
  {
    TreeAlike(m, m', l.tree, write);
  }

  lemma ClosedAppended(m: map<Id, Req>, l: Lists, write: bool, x: Id)
    requires Closed(m, l, write, x) && x !in l.fifo
    ensures Good(m, l.(fifo := l.fifo + [x]), write)
  {
    Inserted(l.fifo, |l.fifo|, x);
    assert InsertAt(l.fifo, |l.fifo|, x) == l.fifo + [x];
  }

  lemma ClosedGood(m: map<Id, Req>, l: Lists, write: bool, x: Id)
    requires Closed(m, l, write, x) && x in l.fifo
    ensures Good(m, l, write)
  {
  }

  lemma GoodOpened(m: map<Id, Req>, l: Lists, write: bool, x: Id)
    requires Good(m, l, write) && x !in l.tree && x in m && m[x].write == write
    ensures Opened(m, l, write, x)
  {
  }

  lemma AddValid(c: Tunables, s: State, x: Id, write: bool, pos: nat, end: nat)
    requires Valid(s) && !Holds(s, x)
    ensures Valid(Add(c, s, x, write, pos, end))
  {
    hide Good, AddRb, Opened, Closed;
    var s0 := s.(rq := s.rq[x := Req(write, pos, end, s.now + Expire(c, write))], sorted := s.sorted + 1);
    GoodAlikeBut(s.rq, s0.rq, s.read, false, x);
    GoodAlikeBut(s.rq, s0.rq, s.write, true, x);
    GoodOpened(s0.rq, Side(s, write), write, x);
    AddRbClosed(s0, x);
    ClosedAppended(s0.rq, Side(AddRb(s0, x), write), write, x);
  }

  lemma GoodAlikeBut(m: map<Id, Req>, m': map<Id, Req>, l: Lists, write: bool, x: Id)
    requires Good(m, l, write) && x !in l.tree && x in m' && m' == m[x := m'[x]]
    ensures Good(m', l, write) && x !in l.fifo
  {
    GoodAlike(m, m', l, write);
  }

  lemma FrontMergedValid(s: State, x: Id, pos: nat)
    requires Valid(s) && Holds(s, x)
    ensures Valid(FrontMerged(s, x, pos))
  {
    var w := s.rq[x].write;
    var l := Side(s, w);
    TreeRemoved(s.rq, l.tree, w, x);
    var m := s.rq[x := s.rq[x].(pos := pos)];
    var l' := l.(tree := Without(l.tree, x));
    assert Tree(m, l'.tree, w) by { TreeAlike(s.rq, m, l'.tree, w); }
    hide Tree, Alias, Place, Without;
    GoodAlikeBut(s.rq, m, Side(s, !w), !w, x);
    var s0 := WithSide(s, w, l').(rq := m);
    AddRbClosed(s0, x);
    ClosedGood(m, Side(AddRb(s0, x), w), w, x);
  }

  lemma BackMergedValid(s: State, x: Id, end: nat)
    requires Valid(s) && Holds(s, x)
    ensures Valid(BackMerged(s, x, end))
  {
    var t := BackMerged(s, x, end);
    assert Good(t.rq, s.read, false) && Good(t.rq, s.write, true);
  }

  /** Moving x behind n and removing n puts x in the place of n. */
  lemma TakesPlace(q: seq<Id>, x: Id, n: Id)
    requires Distinct(q) && x in q && n in q && x != n
    ensures n in Without(q, x)
    ensures x !in Without(q, x) && Distinct(MoveBehind(q, x, n)) && n in MoveBehind(q, x, n)
    ensures Without(MoveBehind(q, x, n), n) == Without(q, x)[Index(Without(q, x), n) := x]
    ensures forall y :: y in MoveBehind(q, x, n) <==> y in q
  {
    hide Index;
    Removed(q, Index(q, x));
    var q' := Without(q, x);
    var i := Index(q', n);
    Inserted(q', i + 1, x);
    var r := InsertAt(q', i + 1, x);
    IndexAt(r, i);
    assert r[i] == n;
    assert Remove(r, i) == q'[i := x];
  }

  lemma MovedBehindGood(m: map<Id, Req>, l: Lists, write: bool, x: Id, n: Id)
    requires Good(m, l, write) && x in l.fifo && n in l.fifo && x != n
    ensures n in Without(l.fifo, x) && Good(m, l.(fifo := MoveBehind(l.fifo, x, n)), write)
  {
    hide Tree;
    TakesPlace(l.fifo, x, n);
  }

  /** The direction of the merged requests, once x has taken over n. */
  lemma TakenOverGood(m: map<Id, Req>, m': map<Id, Req>, l: Lists, write: bool, x: Id, n: Id, early: bool)
    requires Good(m, l, write) && x in l.fifo && n in l.fifo && x != n && Alike(m, m', l.tree)
    ensures n in Without(l.fifo, x)
    ensures var l' := if early then l.(fifo := MoveBehind(l.fifo, x, n)) else l;
            (n in l'.fifo && Good(m', Drop(l', n), write) && |Drop(l', n).tree| == |l.tree| - 1)
  {
    hide Tree, Alike;
    MovedBehindGood(m, l, write, x, n);
    hide MoveBehind;
    var l' := if early then l.(fifo := MoveBehind(l.fifo, x, n)) else l;
    GoodAlike(m, m', l', write);
    DropGood(m', l', write, n);
  }

  lemma MergedRequestsValid(s: State, x: Id, n: Id)
    requires Valid(s) && Enabled(s, Merging(x, n))
    ensures Valid(MergedRequests(s, x, n))
  {
    var w := s.rq[x].write;
    var m' := MergedRequests(s, x, n).rq;
    hide Tree, MoveBehind, Without, Latter, Drop;
    var early := s.rq[n].expires < s.rq[x].expires;
    TakenOverGood(s.rq, m', Side(s, w), w, x, n, early);
    GoodAlike(s.rq, m', Side(s, !w), !w);
    MergedNext(Side(s, w), x, n, early);
  }

  /** The survivor spans both requests and is due when the earlier one was; only the other leaves. */
  lemma MergedSpans(s: State, x: Id, n: Id)
    requires Valid(s) && Enabled(s, Merging(x, n))
    ensures var t := MergedRequests(s, x, n);
            && x in t.rq && t.rq[x].pos == s.rq[x].pos && t.rq[x].end == s.rq[n].end
            && t.rq[x].expires <= s.rq[x].expires && t.rq[x].expires <= s.rq[n].expires
            && (t.rq[x].expires == s.rq[x].expires || t.rq[x].expires == s.rq[n].expires)
            && (forall y | y in s.rq && y != x :: y in t.rq && t.rq[y] == s.rq[y])
            && (forall y :: Holds(t, y) <==> Holds(s, y) && y != n)
  {
    hide MoveBehind, Latter, Without;
    var w := s.rq[x].write;
    TreeRemoved(s.rq, Side(s, w).tree, w, n);
  }

  lemma MergedNext(l: Lists, x: Id, n: Id, early: bool)
    requires n in l.fifo && n in l.tree && x in l.fifo && x != n && Distinct(l.fifo)
    ensures n in Without(l.fifo, x)
    ensures var l' := if early then l.(fifo := MoveBehind(l.fifo, x, n)) else l;
            (n in l'.fifo && (l.next.None? ==> Drop(l', n).next.None?))
  {
    TakesPlace(l.fifo, x, n);
  }

  lemma MoveValid(s: State, x: Id)
    requires Valid(s) && Holds(s, x)
    ensures Linked(s, x) && Valid(Move(s, x))
    ensures forall y :: Holds(Move(s, x), y) <==> Holds(s, y) && y != x
  {
    var w := s.rq[x].write;
    var l := Side(s, w);
    LatterStays(s.rq, l.tree, w, x);
    DropGood(s.rq, l.(next := Latter(l.tree, x)), w, x);
    TreeRemoved(s.rq, l.tree, w, x);
    UnsetGood(s.rq, Side(s, !w), !w);
  }

  lemma ChosenIsHeld(c: Tunables, s: State)
    requires Valid(s)
    ensures Choose(c, s).Choice? ==> Holds(s, Choose(c, s).x)
    ensures Choose(c, s).Nothing? <==> s.sorted == 0
  {
    EmptyTogether(s.read);
    EmptyTogether(s.write);
  }

  lemma EmptyTogether(l: Lists)
    requires forall x :: x in l.fifo <==> x in l.tree
    ensures l.tree == [] <==> l.fifo == []
  {
    assert l.tree != [] ==> l.tree[0] in l.fifo;
    assert l.fifo != [] ==> l.fifo[0] in l.tree;
  }

  lemma ValidKnows(s: State)
    requires Valid(s)
    ensures Known(s.rq, s.read.fifo) && Known(s.rq, s.write.fifo) && Distinct(s.read.fifo) && Distinct(s.write.fifo)
    ensures forall x | Holds(s, x) :: Linked(s, x) && x !in Side(s, !s.rq[x].write).fifo
    ensures forall x | !Holds(s, x) :: x !in s.read.fifo && x !in s.write.fifo
    ensures forall x | x in s.read.tree :: x in s.read.fifo
    ensures forall x | x in s.write.tree :: x in s.write.fifo
    ensures Tree(s.rq, s.read.tree, false) && Tree(s.rq, s.write.tree, true)
  {
  }

  /** Every operation keeps the invariant. */
  lemma StepValid(c: Tunables, s: State, e: Event)
    requires Valid(s) && Enabled(s, e)
    ensures Valid(Step(c, s, e))
  {
    match e
    case Adding(x, write, pos, end) => AddValid(c, s, x, write, pos, end);
    case FrontMerging(x, pos) => FrontMergedValid(s, x, pos);
    case BackMerging(x, end) => BackMergedValid(s, x, end);
    case Merging(x, n) => MergedRequestsValid(s, x, n);
    case Dispatching =>
      ChosenIsHeld(c, s);
      var d := Choose(c, s);
      if d.Choice? { MoveValid(s.(batching := d.batching, starved := d.starved), d.x); }
    case Ticking(_) =>
  }

  // ----------------------------------------------------------------- runs

  ghost predicate Feasible(c: Tunables, s: State, events: seq<Event>)
    requires Valid(s)
    decreases events
  {
    events != [] ==>
      Enabled(s, events[0]) && (StepValid(c, s, events[0]); Feasible(c, Step(c, s, events[0]), events[1..]))
  }

  /** Every reachable state is valid. */
  ghost function Run(c: Tunables, s: State, events: seq<Event>): (t: State)
    requires Valid(s) && Feasible(c, s, events)
    ensures Valid(t)
    decreases events
  {
    if events == [] then s else StepValid(c, s, events[0]); Run(c, Step(c, s, events[0]), events[1..])
  }

  lemma InitValid()
    ensures Valid(Init())
  {
  }

  // ----------------------------------------------------------- starvation

  function Batch(c: Tunables): (b: nat)
    ensures b >= 1
  {
    if c.batch == 0 then 1 else c.batch
  }

  /** How many more reads can be picked before a write is: whole batches and the rest of this one. */
  function Patience(c: Tunables, s: State): (p: nat) {
    (if s.starved < c.starved then (c.starved - s.starved) * Batch(c) else 0) +
    (if s.batching < c.batch then c.batch - s.batching else 0)
  }

  /** writes_starved whole batches, and a batch that no dispatch has been charged for. */
  function Bound(c: Tunables): (b: nat)
    ensures b <= (c.starved + 1) * Batch(c)
  {
    assert (c.starved + 1) * Batch(c) == c.starved * Batch(c) + Batch(c);
    c.starved * Batch(c) + c.batch
  }

  lemma PatienceBounded(c: Tunables, s: State)
    ensures Patience(c, s) <= Bound(c)
  {
    assert (c.starved - s.starved) * Batch(c) <= c.starved * Batch(c) by {
      assert c.starved * Batch(c) == (c.starved - s.starved) * Batch(c) + s.starved * Batch(c);
    }
  }

  /** A dispatch picks a read although a write is pending. */
  ghost predicate PicksRead(c: Tunables, s: State)
    requires Valid(s)
  {
    var d := Choose(c, s);
    s.write.fifo != [] && d.Choice? && d.x in s.rq && !s.rq[d.x].write
  }

  lemma WriteTurn(c: Tunables, s: State)
    requires Valid(s) && !Continues(c, s) && s.write.fifo != [] && (s.read.fifo == [] || s.starved >= c.starved)
    ensures Choose(c, s).Choice? && Choose(c, s).x in s.rq && s.rq[Choose(c, s).x].write
  {
    assert Choose(c, s).x in s.write.tree;
  }

  lemma PickCostsPatience(c: Tunables, s: State)
    requires Valid(s) && PicksRead(c, s)
    ensures Patience(c, Dispatch(c, s)) < Patience(c, s)
  {
    var d := Choose(c, s);
    ChosenIsHeld(c, s);
    if !Continues(c, s) {
      if s.read.fifo == [] || s.starved >= c.starved {
        WriteTurn(c, s);
      }
      assert (c.starved - s.starved) * Batch(c) == (c.starved - d.starved) * Batch(c) + Batch(c);
    }
  }

  /** Nothing but a dispatch touches the two counters, not even an insertion that displaces next_rq. */
  lemma OthersKeepPatience(c: Tunables, s: State, e: Event)
    requires Valid(s) && Enabled(s, e) && !e.Dispatching?
    ensures Patience(c, Step(c, s, e)) == Patience(c, s)
  {
    hide Valid, Holds, MoveOut, Link, Drop, Without, Alias;
  }

  /** Throughout the run a write is pending at every dispatch and no dispatch picks one. */
  ghost predicate WritesWait(c: Tunables, s: State, events: seq<Event>)
    requires Valid(s) && Feasible(c, s, events)
    decreases events
  {
    events != [] ==>
      (events[0].Dispatching? ==> PicksRead(c, s)) &&
      (StepValid(c, s, events[0]); WritesWait(c, Step(c, s, events[0]), events[1..]))
  }

  function Dispatches(events: seq<Event>): (n: nat) {
    if events == [] then 0 else (if events[0].Dispatching? then 1 else 0) + Dispatches(events[1..])
  }

  lemma {:induction false} WaitingCostsPatience(c: Tunables, s: State, events: seq<Event>)
    requires Valid(s) && Feasible(c, s, events) && WritesWait(c, s, events)
    ensures Dispatches(events) <= Patience(c, s)
    decreases events
  {
    if events != [] {
      StepValid(c, s, events[0]);
      WaitingCostsPatience(c, Step(c, s, events[0]), events[1..]);
      if events[0].Dispatching? {
        PickCostsPatience(c, s);
      } else {
        OthersKeepPatience(c, s, events[0]);
      }
    }
  }

  /**
    A pending write is passed over at most writes_starved * max(1, fifo_batch) + fifo_batch times,
    from any valid state and whatever is inserted and merged in between.
  */
  lemma WritesNotStarved(c: Tunables, s: State, events: seq<Event>)
    requires Valid(s) && Feasible(c, s, events) && WritesWait(c, s, events)
    ensures Dispatches(events) <= Bound(c) <= (c.starved + 1) * Batch(c)
  {
    WaitingCostsPatience(c, s, events);
    PatienceBounded(c, s);
  }

  // ---------------------------------------------------------------- drain

  /** elv_drain_elevator: dispatch until nothing is left. */
  ghost function Drain(c: Tunables, s: State): (t: State)
    requires Valid(s)
    decreases s.sorted
  {
    ChosenIsHeld(c, s);
    if Choose(c, s).Nothing? then s else StepValid(c, s, Dispatching); Drain(c, Dispatch(c, s))
  }

  lemma DispatchMoves(c: Tunables, s: State)
    requires Valid(s) && s.sorted > 0
    ensures Choose(c, s).Choice?
    ensures var x, t := Choose(c, s).x, Dispatch(c, s);
            && Valid(t) && Holds(s, x) && t.dispatched == s.dispatched + [x] && t.sorted == s.sorted - 1
            && forall y :: Holds(t, y) <==> Holds(s, y) && y != x
  {
    ChosenIsHeld(c, s);
    var d := Choose(c, s);
    var s' := s.(batching := d.batching, starved := d.starved);
    MoveValid(s', d.x);
    assert forall y :: Holds(s', y) <==> Holds(s, y);
  }

  lemma EmptyHoldsNone(s: State)
    requires Valid(s) && s.sorted == 0
    ensures forall x :: !Holds(s, x)
  {
    assert s.read.tree == [] && s.write.tree == [];
  }

  /** Between s and t every request held was dispatched, each once, and nothing else was. */
  ghost predicate Emptied(s: State, t: State) {
    && s.dispatched <= t.dispatched
    && var moved := t.dispatched[|s.dispatched|..];
       |moved| == s.sorted && Distinct(moved) && forall x :: x in moved <==> Holds(s, x)
  }

  lemma EmptiedStep(s: State, x: Id, t: State, u: State)
    requires Holds(s, x) && t.dispatched == s.dispatched + [x] && t.sorted == s.sorted - 1
    requires forall y :: Holds(t, y) <==> Holds(s, y) && y != x
    requires Emptied(t, u)
    ensures Emptied(s, u)
  {
    hide Holds;
    var rest, moved := u.dispatched[|t.dispatched|..], u.dispatched[|s.dispatched|..];
    assert moved == [x] + rest;
  }

  /** A forced drain ends with nr_sorted 0 and has dispatched every request held, each once. */
  lemma {:induction false} DrainEmpties(c: Tunables, s: State)
    requires Valid(s)
    ensures Valid(Drain(c, s)) && Drain(c, s).sorted == 0 && Emptied(s, Drain(c, s))
    ensures forall x :: !Holds(Drain(c, s), x)
    decreases s.sorted
  {
    ChosenIsHeld(c, s);
    if s.sorted == 0 {
      EmptyHoldsNone(s);
    } else {
      DispatchMoves(c, s);
      hide Holds, Dispatch, Choose, Emptied;
      DrainEmpties(c, Dispatch(c, s));
      EmptiedStep(s, Choose(c, s).x, Dispatch(c, s), Drain(c, s));
    }
  }
}
