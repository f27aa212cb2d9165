/** The scheduler as it runs: struct deadline_data with the dispatch queue and nr_sorted of the queue. */
module DeadlineQueue {
  import opened NumberLists
  import opened Deadline
  import opened DeadlineInvariants

  class Scheduler {
    const c: Tunables
    var rq: map<Id, Req>
    var now: nat
    var read: Lists
    var write: Lists
    var batching: nat
    var starved: nat
    var sorted: int
    var dispatched: seq<Id>

    function S(): (s: State)
      reads this
    {
      State(rq, now, read, write, batching, starved, sorted, dispatched)
    }

    constructor (c: Tunables)
      ensures S() == Init() && this.c == c
    {
      this.c := c;
      rq, now, batching, starved, sorted, dispatched := map[], 0, 0, 0, 0, [];
      read, write := Lists([], [], None), Lists([], [], None);
    }

    method SetSide(w: bool, l: Lists)
      modifies this
      ensures S() == WithSide(old(S()), w, l)
    {
      if w { write := l; } else { read := l; }
    }

    /** elv_rb_add: links x unless a request is at the same sector, which it returns. */
    method RbAdd(x: Id) returns (a: Option<Id>)
      requires Open(S(), x)
      modifies this
      ensures var s := old(S());
              var w := s.rq[x].write;
              && a == Alias(s.rq, Side(s, w).tree, s.rq[x].pos)
              && S() == if a.None? then WithSide(s, w, Link(s.rq, Side(s, w), x)) else s
    {
      var w := rq[x].write;
      var l := Side(S(), w);
      a := Alias(rq, l.tree, rq[x].pos);
      if a.None? {
        SetSide(w, Link(rq, l, x));
      }
    }

    /** deadline_del_rq_rb; elv_rb_del must be given a linked request. */
    method DelRqRb(x: Id)
      requires x in rq && x in Side(S(), rq[x].write).tree
      modifies this
      ensures var s := old(S());
              var w := s.rq[x].write;
              var l := Side(s, w);
              S() == WithSide(s, w, Lists(Without(l.tree, x), l.fifo, if l.next == Some(x) then Latter(l.tree, x) else l.next))
    {
      var w := rq[x].write;
      var l := Side(S(), w);
      if l.next == Some(x) {
        l := l.(next := Latter(l.tree, x));
      }
      SetSide(w, l.(tree := Without(l.tree, x)));
    }

    /** deadline_remove_request. */
    method RemoveRequest(x: Id)
      requires Linked(S(), x)
      modifies this
      ensures var s := old(S()); S() == WithSide(s, s.rq[x].write, Drop(Side(s, s.rq[x].write), x))
    {
      var w := rq[x].write;
      var l := Side(S(), w);
      SetSide(w, l.(fifo := Without(l.fifo, x)));
      DelRqRb(x);
    }

    /** deadline_move_request and deadline_move_to_dispatch. */
    method MoveRequest(x: Id)
      requires Linked(S(), x)
      modifies this
      ensures S() == Move(old(S()), x)
    {
      hide Without, Latter;
      var w := rq[x].write;
      var next := Latter(Side(S(), w).tree, x);
      read, write := read.(next := None), write.(next := None);
      SetSide(w, Side(S(), w).(next := next));
      RemoveRequest(x);
      sorted := sorted - 1;
      dispatched := dispatched + [x];
    }

    /** deadline_add_rq_rb: the loop over aliases runs at most twice, as sectors are unique. */
    method AddRqRb(x: Id)
      requires Open(S(), x)
      modifies this
      ensures S() == AddRb(old(S()), x) && rq == old(rq) && now == old(now)
    {
      hide Without, Latter, Place, InsertAt, MoveOut, Alias;
      ghost var s := S();
      ghost var w := rq[x].write;
      ghost var first := true;
      var a := RbAdd(x);
      while a.Some?
        invariant a.Some? ==> first && S() == s && a == Alias(s.rq, Side(s, w).tree, s.rq[x].pos)
        invariant a.None? ==> S() == AddRb(s, x)
        decreases first
      {
        AliasRoom(s, x);
        MoveRequest(a.value);
        a := RbAdd(x);
        first := false;
      }
    }

    /** elv_insert with ELEVATOR_INSERT_SORT and deadline_add_request. */
    method AddRequest(x: Id, w: bool, pos: nat, end: nat)
      requires Valid(S()) && !Holds(S(), x)
      modifies this
      ensures S() == Add(c, old(S()), x, w, pos, end)
      ensures now == old(now) && x in rq && rq[x] == Req(w, pos, end, now + if w then c.writeExpire else c.readExpire)
    {
      hide Valid, Holds, AddRb, Open;
      ghost var s := S();
      NewOpen(s, x, Req(w, pos, end, now + Expire(c, w)));
      sorted := sorted + 1;
      rq := rq[x := Req(w, pos, end, now + Expire(c, w))];
      AddRqRb(x);
      var l := Side(S(), w);
      SetSide(w, l.(fifo := l.fifo + [x]));
    }

    /** deadline_merged_request; the merge has already set the sector. */
    method MergedRequest(x: Id, front: bool, sector: nat)
      requires Valid(S()) && Holds(S(), x)
      modifies this
      ensures S() == if front then FrontMerged(old(S()), x, sector) else BackMerged(old(S()), x, sector)
    {
      ghost var s := S();
      if front {
        FrontOpen(s, x, sector);
        var w := rq[x].write;
        var l := Side(S(), w);
        rq := rq[x := rq[x].(pos := sector)];
        SetSide(w, l.(tree := Without(l.tree, x)));
        AddRqRb(x);
      } else {
        rq := rq[x := rq[x].(end := sector)];
      }
    }

    /** elv_merge_requests with deadline_merged_requests. */
    method TakeOver(x: Id, n: Id)
      requires Valid(S()) && Enabled(S(), Merging(x, n))
      modifies this
      ensures S() == MergedRequests(old(S()), x, n)
    {
      hide Valid, Without, MoveBehind, Latter, Distinct;
      ValidKnows(S());
      var w := rq[x].write;
      var l := Side(S(), w);
      TakesPlace(l.fifo, x, n);
      rq := rq[x := rq[x].(end := rq[n].end)];
      if x in l.fifo && n in l.fifo {
        if rq[n].expires < rq[x].expires {
          SetSide(w, l.(fifo := MoveBehind(l.fifo, x, n)));
          rq := rq[x := rq[x].(expires := rq[n].expires)];
        }
      }
      RemoveRequest(n);
      sorted := sorted - 1;
    }

    /** deadline_check_fifo, and the choice within a direction. */
    method BestOf(l: Lists) returns (y: Id)
      requires l.fifo != [] && Known(rq, l.fifo)
      ensures y == Best(S(), l)
    {
      if rq[l.fifo[0]].expires < now || l.next.None? {
        y := l.fifo[0];
      } else {
        y := l.next.value;
      }
    }

    /** deadline_dispatch_requests; the BUG_ONs are the emptiness of a tree whose FIFO is not empty. */
    method DispatchRequests() returns (done: bool)
      requires Valid(S())
      modifies this
      ensures S() == Dispatch(c, old(S()))
      ensures done == (old(sorted) > 0)
    {
      hide Valid, Move;
      ghost var s := S();
      ChosenIsHeld(c, s);
      ValidKnows(s);
      ListsAgree(s);
      var someReads, someWrites := read.fifo != [], write.fifo != [];
      var x := if write.next.Some? then write.next else read.next;
      if x.Some? && batching < c.batch {
        batching := batching + 1;
        MoveRequest(x.value);
        return true;
      }
      var w: bool;
      if someReads {
        assert read.tree != [];
        w := false;
        if someWrites {
          w := starved >= c.starved;
          starved := starved + 1;
        }
      } else if someWrites {
        w := true;
      } else {
        return false;
      }
      if w {
        assert write.tree != [];
        starved := 0;
      }
      var l := Side(S(), w);
      var y := BestOf(l);
      batching := 0;
      batching := batching + 1;
      MoveRequest(y);
      return true;
    }

    /** elv_drain_elevator. */
    method DrainElevator()
      requires Valid(S())
      modifies this
      ensures S() == Drain(c, old(S())) && sorted == 0
      ensures read.fifo == [] && write.fifo == []
    {
      ghost var s := S();
      DrainEmpties(c, s);
      var more := true;
      while more
        invariant Valid(S()) && Drain(c, S()) == Drain(c, s)
        invariant !more ==> sorted == 0
        decreases more, sorted
      {
        ghost var t := S();
        ChosenIsHeld(c, t);
        StepValid(c, t, Dispatching);
        more := DispatchRequests();
        if more { DispatchMoves(c, t); }
      }
      ChosenIsHeld(c, S());
      EmptyTogether(read);
      EmptyTogether(write);
    }
  }

  lemma ListsAgree(s: State)
    requires Valid(s)
    ensures s.sorted >= 0
    ensures s.read.tree == [] <==> s.read.fifo == []
    ensures s.write.tree == [] <==> s.write.fifo == []
  {
    EmptyTogether(s.read);
    EmptyTogether(s.write);
  }

  /** One alias moved out, the sector is free and the tree is still fit for x. */
  lemma AliasRoom(s: State, x: Id)
    requires Open(s, x)
    requires Alias(s.rq, Side(s, s.rq[x].write).tree, s.rq[x].pos).Some?
    ensures var a := Alias(s.rq, Side(s, s.rq[x].write).tree, s.rq[x].pos).value;
            && Linked(s, a) && Open(Move(s, a), x)
            && Alias(s.rq, Side(Move(s, a), s.rq[x].write).tree, s.rq[x].pos).None?
  {
    hide Tree, Without, Latter, Alias;
    var w := s.rq[x].write;
    var l := Side(s, w);
    TreeKnown(s.rq, l.tree, w);
    OpenAlias(s.rq, l.tree, w, s.rq[x].pos);
    var a := Alias(s.rq, l.tree, s.rq[x].pos).value;
    NoSecondAlias(s.rq, l.tree, w, s.rq[x].pos);
    StillContained(s.rq, l, w, a);
  }

  lemma TreeKnown(m: map<Id, Req>, tree: seq<Id>, write: bool)
    requires Tree(m, tree, write)
    ensures Known(m, tree)
  {
  }

  lemma OpenAlias(m: map<Id, Req>, tree: seq<Id>, write: bool, pos: nat)
    requires Tree(m, tree, write) && Alias(m, tree, pos).Some?
    ensures Alias(m, tree, pos).value in tree && Alias(m, tree, pos).value in m
    ensures m[Alias(m, tree, pos).value].write == write
  {
  }

  lemma StillContained(m: map<Id, Req>, l: Lists, write: bool, a: Id)
    requires Tree(m, l.tree, write) && a in l.tree && a in l.fifo && forall y | y in l.tree :: y in l.fifo
    ensures forall y | y in Without(l.tree, a) :: y in Without(l.fifo, a)
  {
    hide Tree;
    TreeRemoved(m, l.tree, write, a);
    var i := Index(l.fifo, a);
    forall y | y in Without(l.tree, a)
      ensures y in Without(l.fifo, a)
    {
      var j :| 0 <= j < |l.fifo| && l.fifo[j] == y;
      assert Without(l.fifo, a)[if j < i then j else j - 1] == y;
    }
  }

  lemma NewOpen(s: State, x: Id, req: Req)
    requires Valid(s) && !Holds(s, x)
    ensures Open(s.(rq := s.rq[x := req], sorted := s.sorted + 1), x)
  {
    GoodAlikeBut(s.rq, s.rq[x := req], Side(s, req.write), req.write, x);
  }

  lemma FrontOpen(s: State, x: Id, pos: nat)
    requires Valid(s) && Holds(s, x)
    ensures x in s.rq
    ensures var w := s.rq[x].write;
            var l := Side(s, w);
            && x in l.tree
            && Open(WithSide(s, w, l.(tree := Without(l.tree, x))).(rq := s.rq[x := s.rq[x].(pos := pos)]), x)
  {
    var w := s.rq[x].write;
    TreeRemoved(s.rq, Side(s, w).tree, w, x);
    TreeAlike(s.rq, s.rq[x := s.rq[x].(pos := pos)], Without(Side(s, w).tree, x), w);
  }
}
