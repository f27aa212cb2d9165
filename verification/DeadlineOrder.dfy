/**
  The sector order in which the deadline scheduler goes through a direction.  next_rq is set when a
  request is dispatched and not looked for again, so it knows nothing of requests that come later.
*/
module DeadlineOrder {
  import opened NumberLists
  import opened Deadline
  import opened DeadlineInvariants

  /**
    What an observer of the dispatches notes: direction and sector of the last request dispatched, the
    requests inserted or moved since, and whether a front merge has moved the successor up or past it.
  */
  datatype Mark = NoMark | Mark(write: bool, pos: nat, late: set<Id>, lost: bool)

  function Touched(e: Event): (t: set<Id>) {
    if e.Adding? || e.FrontMerging? then {e.x} else {}
  }

  /** The front merge takes the successor elsewhere than towards the last request dispatched. */
  predicate Loses(s: State, m: Mark, e: Event)
    requires m.Mark?
  {
    && e.FrontMerging? && Side(s, m.write).next == Some(e.x)
    && !(e.x in s.rq && m.pos < e.pos <= s.rq[e.x].pos)
  }

  ghost function Noted(s: State, m: Mark, e: Event, t: State): (m': Mark) {
    if |t.dispatched| > |s.dispatched| then
      var x := t.dispatched[|t.dispatched| - 1];
      if x in t.rq then Mark(t.rq[x].write, t.rq[x].pos, Touched(e), false) else NoMark
    else if m.NoMark? then m
    else m.(late := m.late + Touched(e), lost := m.lost || Loses(s, m, e))
  }

  ghost function MarkOf(c: Tunables, s: State, m: Mark, events: seq<Event>): (m': Mark)
    requires Valid(s) && Feasible(c, s, events)
    decreases events
  {
    if events == [] then m
    else
      StepValid(c, s, events[0]);
      var t := Step(c, s, events[0]);
      MarkOf(c, t, Noted(s, m, events[0], t), events[1..])
  }

  // -------------------------------------------------------- the successor

  /** A request that the successor was chosen from and that is above the last one dispatched. */
  predicate Above(rq: map<Id, Req>, z: Id, pos: nat, late: set<Id>) {
    z in rq && z !in late && rq[z].pos > pos
  }

  /** `next` is of the least sector above `pos`, or there is none, as far as requests are not late. */
  ghost predicate Succeeds(rq: map<Id, Req>, tree: seq<Id>, next: Option<Id>, pos: nat, late: set<Id>) {
    && (next.Some? ==> next.value in rq && rq[next.value].pos > pos)
    && (forall z | z in tree && Above(rq, z, pos, late) :: next.Some? && rq[next.value].pos <= rq[z].pos)
  }

  lemma LatterSucceeds(rq: map<Id, Req>, tree: seq<Id>, write: bool, x: Id)
    requires Tree(rq, tree, write) && x in tree
    ensures Succeeds(rq, Without(tree, x), Latter(tree, x), rq[x].pos, {})
  {
    TreeRemoved(rq, tree, write, x);
    var i := Index(tree, x);
    forall z | z in tree && rq[z].pos > rq[x].pos
      ensures Latter(tree, x).Some? && rq[Latter(tree, x).value].pos <= rq[z].pos
    {
      var j :| 0 <= j < |tree| && tree[j] == z;
      assert i < j;
    }
  }

  /** A successor that leaves is replaced by the one behind it. */
  lemma NextLatterSucceeds(rq: map<Id, Req>, tree: seq<Id>, write: bool, n: Id, next: Option<Id>, pos: nat, late: set<Id>)
    requires Tree(rq, tree, write) && n in tree && Succeeds(rq, tree, next, pos, late)
    ensures Succeeds(rq, Without(tree, n), if next == Some(n) then Latter(tree, n) else next, pos, late)
  {
    hide Latter, Without;
    TreeRemoved(rq, tree, write, n);
    LatterSucceeds(rq, tree, write, n);
    forall z | z in Without(tree, n) && next == Some(n) && Above(rq, z, pos, late)
      ensures Above(rq, z, rq[n].pos, {})
    {
      NotEqual(rq, tree, write, n, z);
    }
  }

  lemma NotEqual(rq: map<Id, Req>, tree: seq<Id>, write: bool, x: Id, y: Id)
    requires Tree(rq, tree, write) && x in tree && y in tree && x != y
    ensures rq[x].pos != rq[y].pos
  {
    var i, j :| 0 <= i < |tree| && 0 <= j < |tree| && tree[i] == x && tree[j] == y;
  }

  lemma SucceedsWith(rq: map<Id, Req>, tree: seq<Id>, more: seq<Id>, next: Option<Id>, pos: nat, late: set<Id>, x: Id)
    requires Succeeds(rq, tree, next, pos, late) && forall y | y in more :: y in tree || y == x
    ensures Succeeds(rq, more, next, pos, late + {x})
  {
  }

  lemma SucceedsAlike(rq: map<Id, Req>, rq': map<Id, Req>, tree: seq<Id>, next: Option<Id>, pos: nat, late: set<Id>)
    requires Succeeds(rq, tree, next, pos, late)
    requires forall y | y in tree || next == Some(y) :: y in rq ==> y in rq' && rq'[y].pos == rq[y].pos
    requires forall y | y in tree :: y in rq
    ensures Succeeds(rq', tree, next, pos, late)
  {
  }

  /** What the mark says of a state. */
  ghost predicate Follows(s: State, m: Mark) {
    if m.NoMark? then s.read.next.None? && s.write.next.None?
    else
      && Side(s, !m.write).next.None?
      && (!m.lost ==> Succeeds(s.rq, Side(s, m.write).tree, Side(s, m.write).next, m.pos, m.late))
  }

  // --------------------------------------------------------------- steps

  /** deadline_add_rq_rb, seen from outside. */
  lemma AddRbFollows(s: State, x: Id)
    requires x in s.rq && Open(s, x)
    requires var w := s.rq[x].write; Opened(s.rq, Side(s, w), w, x)
    ensures var w, t := s.rq[x].write, AddRb(s, x);
            && t.rq == s.rq
            && if t.dispatched == s.dispatched then
                 && Side(t, w).next == Side(s, w).next && Side(t, !w) == Side(s, !w)
                 && forall y :: y in Side(t, w).tree <==> y in Side(s, w).tree || y == x
               else
                 && |t.dispatched| == |s.dispatched| + 1
                 && var a := t.dispatched[|s.dispatched|];
                    && a in s.rq && s.rq[a].write == w && Side(t, !w).next.None?
                    && Succeeds(s.rq, Side(t, w).tree, Side(t, w).next, s.rq[a].pos, {x})
  {
    hide Without, Latter, Place, Alias;
    var w := s.rq[x].write;
    var l := Side(s, w);
    var a := Alias(s.rq, l.tree, s.rq[x].pos);
    if a.None? {
      Inserted(l.tree, Place(s.rq, l.tree, s.rq[x].pos), x);
    } else {
      LatterSucceeds(s.rq, l.tree, w, a.value);
      TreeRemoved(s.rq, l.tree, w, a.value);
      var tree := Without(l.tree, a.value);
      Inserted(tree, Place(s.rq, tree, s.rq[x].pos), x);
      SucceedsWith(s.rq, tree, InsertAt(tree, Place(s.rq, tree, s.rq[x].pos), x), Latter(l.tree, a.value),
                   s.rq[a.value].pos, {}, x);
    }
  }

  lemma AddFollows(c: Tunables, s: State, m: Mark, e: Event)
    requires Valid(s) && Enabled(s, e) && Follows(s, m) && e.Adding?
    ensures Follows(Step(c, s, e), Noted(s, m, e, Step(c, s, e)))
  {
    hide Good, AddRb, Opened, Succeeds, Tree;
    var x, w := e.x, e.write;
    var s0 := s.(rq := s.rq[x := Req(w, e.pos, e.end, s.now + Expire(c, w))], sorted := s.sorted + 1);
    GoodAlikeBut(s.rq, s0.rq, s.read, false, x);
    GoodAlikeBut(s.rq, s0.rq, s.write, true, x);
    GoodOpened(s0.rq, Side(s, w), w, x);
    AddOpen(s0, x);
    AddRbFollows(s0, x);
    if m.Mark? && !m.lost && Step(c, s, e).dispatched == s.dispatched {
      KeepsOthers(s, m, s0.rq, x);
      SucceedsWith(s0.rq, Side(s, m.write).tree, Side(Step(c, s, e), m.write).tree, Side(s, m.write).next, m.pos, m.late, x);
    }
  }

  lemma AddOpen(s: State, x: Id)
    requires x in s.rq
    requires var w := s.rq[x].write; Opened(s.rq, Side(s, w), w, x)
    ensures Open(s, x)
  {
  }

  /** A change of a request that is neither held nor the successor. */
  lemma KeepsOthers(s: State, m: Mark, rq: map<Id, Req>, x: Id)
    requires Valid(s) && m.Mark? && Succeeds(s.rq, Side(s, m.write).tree, Side(s, m.write).next, m.pos, m.late)
    requires !Holds(s, x) && x in rq && rq == s.rq[x := rq[x]]
    ensures Succeeds(rq, Side(s, m.write).tree, Side(s, m.write).next, m.pos, m.late)
  {
    ValidKnows(s);
    SucceedsAlike(s.rq, rq, Side(s, m.write).tree, Side(s, m.write).next, m.pos, m.late);
  }

  /** The direction of a front merge, with the request taken out of the tree. */
  lemma FrontOpened(s: State, x: Id, pos: nat)
    requires Valid(s) && Holds(s, x)
    ensures x in s.rq
    ensures var w := s.rq[x].write;
            var l := Side(s, w);
            var rq := s.rq[x := s.rq[x].(pos := pos)];
            x in l.tree && Opened(rq, l.(tree := Without(l.tree, x)), w, x)
  {
    ValidKnows(s);
    var w := s.rq[x].write;
    TreeRemoved(s.rq, Side(s, w).tree, w, x);
  }

  /** A front merge without a displaced request: the successor stays what it is. */
  lemma FrontSucceeds(s: State, m: Mark, x: Id, pos: nat)
    requires Valid(s) && Holds(s, x) && m.Mark? && !m.lost && !Loses(s, m, FrontMerging(x, pos))
    requires Succeeds(s.rq, Side(s, m.write).tree, Side(s, m.write).next, m.pos, m.late) && x in s.rq
    ensures Succeeds(s.rq[x := s.rq[x].(pos := pos)], Side(s, m.write).tree, Side(s, m.write).next, m.pos, m.late + {x})
  {
    ValidKnows(s);
  }

  lemma FrontFollows(c: Tunables, s: State, m: Mark, e: Event)
    requires Valid(s) && Enabled(s, e) && Follows(s, m) && e.FrontMerging?
    ensures Follows(Step(c, s, e), Noted(s, m, e, Step(c, s, e)))
  {
    hide Good, AddRb, Opened, Succeeds, Tree, Loses, Without;
    FrontOpened(s, e.x, e.pos);
    var x, w := e.x, s.rq[e.x].write;
    var l := Side(s, w);
    var rq := s.rq[x := s.rq[x].(pos := e.pos)];
    var s0 := WithSide(s, w, l.(tree := Without(l.tree, x))).(rq := rq);
    AddOpen(s0, x);
    AddRbFollows(s0, x);
    var t := Step(c, s, e);
    assert t == AddRb(s0, x);
    if m.Mark? && !Noted(s, m, e, t).lost && t.dispatched == s.dispatched {
      FrontSucceeds(s, m, x, e.pos);
      WithoutSubset(s, x, w);
      SucceedsWith(rq, Side(s, m.write).tree, Side(t, m.write).tree, Side(s, m.write).next, m.pos, m.late + {x}, x);
      assert m.late + {x} + {x} == m.late + {x};
    }
  }

  lemma WithoutSubset(s: State, x: Id, w: bool)
    requires Valid(s) && x in Side(s, w).tree
    ensures forall y | y in Without(Side(s, w).tree, x) :: y in Side(s, w).tree
  {
    TreeRemoved(s.rq, Side(s, w).tree, w, x);
  }

  lemma DispatchFollows(c: Tunables, s: State, m: Mark)
    requires Valid(s) && Follows(s, m)
    ensures Follows(Dispatch(c, s), Noted(s, m, Dispatching, Dispatch(c, s)))
  {
    hide Best, Without, Latter;
    ChosenIsHeld(c, s);
    ValidKnows(s);
    var d := Choose(c, s);
    if d.Choice? {
      var w := s.rq[d.x].write;
      LatterSucceeds(s.rq, Side(s, w).tree, w, d.x);
    } else {
      assert m.Mark? ==> m.late + {} == m.late;
    }
  }

  lemma TreesKnown(s: State)
    requires Valid(s)
    ensures forall y | y in s.read.tree || y in s.write.tree :: y in s.rq
  {
  }

  lemma MergeFollows(s: State, m: Mark, x: Id, n: Id)
    requires Valid(s) && Enabled(s, Merging(x, n)) && Follows(s, m)
    ensures var t := MergedRequests(s, x, n); Follows(t, Noted(s, m, Merging(x, n), t))
  {
    hide MoveBehind, Without, Latter, Tree;
    ValidKnows(s);
    var w, t := s.rq[x].write, MergedRequests(s, x, n);
    WithoutSubset(s, n, w);
    TreesKnown(s);
    if m.Mark? {
      assert m.late + {} == m.late;
      if !m.lost {
        if w == m.write { NextLatterSucceeds(s.rq, Side(s, w).tree, w, n, Side(s, w).next, m.pos, m.late); }
        SucceedsAlike(s.rq, t.rq, Side(t, m.write).tree, Side(t, m.write).next, m.pos, m.late);
      }
    }
  }

  /** Every operation keeps the successor in sector order. */
  lemma StepFollows(c: Tunables, s: State, m: Mark, e: Event)
    requires Valid(s) && Enabled(s, e) && Follows(s, m)
    ensures Follows(Step(c, s, e), Noted(s, m, e, Step(c, s, e)))
  {
    match e
    case Adding(_, _, _, _) => AddFollows(c, s, m, e);
    case FrontMerging(_, _) => FrontFollows(c, s, m, e);
    case BackMerging(x, end) => SameFollows(s, m, e, Step(c, s, e));
    case Merging(x, n) => MergeFollows(s, m, x, n);
    case Dispatching => DispatchFollows(c, s, m);
    case Ticking(_) => SameFollows(s, m, e, Step(c, s, e));
  }

  lemma SameFollows(s: State, m: Mark, e: Event, t: State)
    requires Valid(s) && Follows(s, m) && (e.BackMerging? || e.Ticking?)
    requires t.read == s.read && t.write == s.write && t.dispatched == s.dispatched
    requires forall y | y in s.rq :: y in t.rq && t.rq[y].pos == s.rq[y].pos
    ensures Follows(t, Noted(s, m, e, t))
  {
    TreesKnown(s);
    if m.Mark? {
      assert m.late + {} == m.late;
      if !m.lost {
        SucceedsAlike(s.rq, t.rq, Side(s, m.write).tree, Side(s, m.write).next, m.pos, m.late);
      }
    }
  }

  lemma {:induction false} RunFollows(c: Tunables, s: State, m: Mark, events: seq<Event>)
    requires Valid(s) && Feasible(c, s, events) && Follows(s, m)
    ensures Follows(Run(c, s, events), MarkOf(c, s, m, events))
    decreases events
  {
    hide Valid, Follows, Enabled, Step;
    if events != [] {
      StepValid(c, s, events[0]);
      StepFollows(c, s, m, events[0]);
      var t := Step(c, s, events[0]);
      RunFollows(c, t, Noted(s, m, events[0], t), events[1..]);
    }
  }

  // ------------------------------------------------------------ main results

  /** The next dispatch does not start a batch with an expired request. */
  ghost predicate Unhurried(c: Tunables, s: State, write: bool)
    requires Valid(s)
  {
    Continues(c, s) || (Side(s, write).fifo != [] && !Expired(s, Side(s, write)))
  }

  /** Request x goes on from the mark in sector order. */
  ghost predicate GoesOn(s: State, m: Mark, x: Id)
    requires m.Mark? && x in s.rq
  {
    var l := Side(s, m.write);
    && (forall z | z in l.tree && Above(s.rq, z, m.pos, m.late) :: m.pos < s.rq[x].pos <= s.rq[z].pos)
    && ((forall z | z in l.tree && z in s.rq :: s.rq[z].pos <= m.pos) ==> l.fifo != [] && x == l.fifo[0])
  }

  lemma ChosenGoesOn(c: Tunables, s: State, m: Mark)
    requires Valid(s) && Follows(s, m) && m.Mark? && !m.lost && Unhurried(c, s, m.write)
    requires var d := Choose(c, s); d.Choice? && d.x in s.rq && s.rq[d.x].write == m.write
    ensures GoesOn(s, m, Choose(c, s).x)
  {
    ValidKnows(s);
    TreesKnown(s);
    var d := Choose(c, s);
    var l := Side(s, m.write);
    if l.next.Some? { assert l.next.value in l.tree; }
    assert s.read.fifo != [] ==> s.read.fifo[0] in s.read.tree;
    assert s.write.fifo != [] ==> s.write.fifo[0] in s.write.tree;
  }

  /**
    In every reachable state: a dispatch in the direction of the last one, unless it starts a batch
    with an expired request, takes a request of a higher sector than the last, and none that was
    already waiting then and is higher, too, comes before it.  If no request of a higher sector is
    left, it starts again from the request with the earliest expiry time.
  */
  lemma GoesOnInSectorOrder(c: Tunables, events: seq<Event>)
    requires Valid(Init()) && Feasible(c, Init(), events)
    ensures var s, m := Run(c, Init(), events), MarkOf(c, Init(), NoMark, events);
            var d := Choose(c, s);
            d.Choice? && d.x in s.rq && m.Mark? && !m.lost && s.rq[d.x].write == m.write && Unhurried(c, s, m.write) ==>
              GoesOn(s, m, d.x)
  {
    hide Choose, Unhurried, GoesOn, Follows;
    var s, m := Run(c, Init(), events), MarkOf(c, Init(), NoMark, events);
    InitFollows();
    RunFollows(c, Init(), NoMark, events);
    var d := Choose(c, s);
    if d.Choice? && d.x in s.rq && m.Mark? && !m.lost && s.rq[d.x].write == m.write && Unhurried(c, s, m.write) {
      ChosenGoesOn(c, s, m);
    }
  }

  lemma InitFollows()
    ensures Follows(Init(), NoMark)
  {
  }

  /** It takes the least sector of all that are higher exactly when none that came later is in between. */
  lemma TakesLeastIff(s: State, m: Mark, x: Id)
    requires m.Mark? && x in s.rq && GoesOn(s, m, x) && s.rq[x].pos > m.pos
    ensures (forall z | z in Side(s, m.write).tree && z in s.rq && s.rq[z].pos > m.pos :: s.rq[x].pos <= s.rq[z].pos) <==>
            !exists z :: z in Side(s, m.write).tree && z in m.late && z in s.rq && m.pos < s.rq[z].pos < s.rq[x].pos
  {
  }

  // ------------------------------------------------------------- an example

  const LATE_RUN: seq<Event> :=
    [Adding(0, false, 100, 101), Adding(1, false, 300, 301), Dispatching, Adding(2, false, 200, 201)]

  function Read(c: Tunables, pos: nat): (r: Req) { Req(false, pos, pos + 1, c.readExpire) }

  function OneRead(c: Tunables): (s: State) {
    State(map[0 := Read(c, 100)], 0, Lists([0], [0], None), Lists([], [], None), 0, 0, 1, [])
  }

  function TwoReads(c: Tunables): (s: State) {
    State(map[0 := Read(c, 100), 1 := Read(c, 300)], 0, Lists([0, 1], [0, 1], None), Lists([], [], None), 0, 0, 2, [])
  }

  function FirstGone(c: Tunables): (s: State) {
    State(map[0 := Read(c, 100), 1 := Read(c, 300)], 0, Lists([1], [1], Some(1)), Lists([], [], None), 1, 0, 1, [0])
  }

  function Late(c: Tunables): (s: State) {
    State(map[0 := Read(c, 100), 1 := Read(c, 300), 2 := Read(c, 200)], 0, Lists([2, 1], [1, 2], Some(1)),
          Lists([], [], None), 1, 0, 2, [0])
  }

  lemma AddsFirst(c: Tunables)
    ensures Valid(Init()) && Enabled(Init(), LATE_RUN[0]) && Step(c, Init(), LATE_RUN[0]) == OneRead(c)
  {
    var m := map[0 := Read(c, 100)];
    assert Place(m, [], 100) == 0 && Alias(m, [], 100) == None && InsertAt([], 0, 0) == [0];
  }

  lemma AddsSecond(c: Tunables)
    ensures Valid(OneRead(c)) && Enabled(OneRead(c), LATE_RUN[1]) && Step(c, OneRead(c), LATE_RUN[1]) == TwoReads(c)
  {
    var m := TwoReads(c).rq;
    assert Place(m, [0], 300) == 1 && Alias(m, [0], 300) == None && InsertAt([0], 1, 1) == [0, 1];
  }

  lemma TakesFirst(c: Tunables)
    ensures Valid(TwoReads(c)) && Enabled(TwoReads(c), LATE_RUN[2]) && Step(c, TwoReads(c), LATE_RUN[2]) == FirstGone(c)
  {
    var s := TwoReads(c);
    assert Valid(s);
    assert s.read.fifo[0] == 0 && Index([0, 1], 0) == 0 && Latter([0, 1], 0) == Some(1);
    assert Without([0, 1], 0) == [1];
  }

  lemma AddsLate(c: Tunables)
    ensures Valid(FirstGone(c)) && Valid(Late(c)) && Enabled(FirstGone(c), LATE_RUN[3])
    ensures Step(c, FirstGone(c), LATE_RUN[3]) == Late(c)
  {
    var m := Late(c).rq;
    assert Place(m, [1], 200) == 0 && Alias(m, [1], 200) == None && InsertAt([1], 0, 2) == [2, 1];
  }

  lemma RunsNone(c: Tunables, s: State)
    requires Valid(s)
    ensures Feasible(c, s, []) && Run(c, s, []) == s
  {
  }

  lemma RunsOn(c: Tunables, s: State, e: Event, rest: seq<Event>, t: State)
    requires Valid(s) && Enabled(s, e) && Step(c, s, e) == t && Valid(t) && Feasible(c, t, rest)
    ensures Feasible(c, s, [e] + rest) && Run(c, s, [e] + rest) == Run(c, t, rest)
  {
    hide Valid, Step, Enabled;
    assert ([e] + rest)[1..] == rest;
  }

  /** A read that comes in between is passed over: after sector 100 it is 300, and not 200. */
  lemma LateIsPassed(c: Tunables)
    ensures Valid(Init()) && Feasible(c, Init(), LATE_RUN)
    ensures Run(c, Init(), LATE_RUN) == Late(c) && Late(c).dispatched == [0] && 2 in Late(c).read.tree
    ensures Late(c).rq[0].pos == 100 && Late(c).rq[1].pos == 300 && Late(c).rq[2].pos == 200
    ensures Choose(c, Late(c)).Choice? && Choose(c, Late(c)).x == 1
  {
    hide Valid, Step, Enabled, Run, Feasible;
    AddsFirst(c);
    AddsSecond(c);
    TakesFirst(c);
    AddsLate(c);
    assert [LATE_RUN[3]] + [] == LATE_RUN[3..];
    assert [LATE_RUN[2]] + LATE_RUN[3..] == LATE_RUN[2..];
    assert [LATE_RUN[1]] + LATE_RUN[2..] == LATE_RUN[1..];
    assert [LATE_RUN[0]] + LATE_RUN[1..] == LATE_RUN;
    RunsNone(c, Late(c));
    RunsOn(c, FirstGone(c), LATE_RUN[3], [], Late(c));
    RunsOn(c, TwoReads(c), LATE_RUN[2], LATE_RUN[3..], FirstGone(c));
    RunsOn(c, OneRead(c), LATE_RUN[1], LATE_RUN[2..], TwoReads(c));
    RunsOn(c, Init(), LATE_RUN[0], LATE_RUN[1..], OneRead(c));
  }
}
