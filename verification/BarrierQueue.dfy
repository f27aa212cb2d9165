/**
  The request queue as block/elevator.c and block/blk-barrier.c keep it: fields updated in
  place under the queue lock.  Every method is proved to take a step of the machine in
  Barrier.dfy, and to reach none of the BUG_ONs of the source.
*/
module BarrierQueue {
  import opened OrderedBits
  import opened Barrier
  import opened BarrierInvariants

  /** There is a drain to wait for. */
  predicate Drains(mode: bv8, inFlight: int) {
    mode & BY_DRAIN != 0 && inFlight != 0
  }

  /** The proxies of a mode, set up for a barrier. */
  function Stacked(m: Store, mode: bv8, a: Attr): (m': Store) {
    m.(pre := if mode & DO_PREFLUSH != 0 then ProxyAttr(PreFlush, a) else m.pre,
       bar := if mode & DO_BAR != 0 then ProxyAttr(Bar, a) else m.bar,
       post := if mode & DO_POSTFLUSH != 0 then ProxyAttr(PostFlush, a) else m.post)
  }

  lemma BeginOrderedIs(s: QState)
    requires Core(s) && AtHead(s)
    ensures var x, a := s.queue[0], At(s.rq, s.queue[0]);
            var mode := OrderedBits.Masked(s.nextOrdered, a.empty);
            BeginOrdered(s) ==
            s.(orderr := 0, ordered := mode, ordseq := s.ordseq | SEQ_STARTED, orig := x.n,
               queue := Proxies(mode) + s.queue[1..], rq := Stacked(s.rq, mode, a),
               h := s.h.(begun := mode, finished := {}, log := s.h.log + [Began(x.n, mode)]))
  {
    hide Core, Proxies, OrderedBits.Masked;
    HeadFacts(s);
  }


  class RequestQueue {
    var queue: seq<Id>
    var sched: set<Id>
    var inFlight: int
    var ordcolor: bool
    var nextOrdered: bv8
    var ordered: bv8
    var ordseq: bv8
    var orderr: int
    var orig: nat
    var rq: Store
    var barriers: nat         // only to label requests with their epoch

    ghost var driver: set<Id>
    ghost var h: History
    ghost var asked: nat  // calls of the scheduler's dispatch function

    /** The state of the machine that the fields represent. */
    ghost function S(): (s: QState)
      reads this
    {
      QState(queue, sched, driver, inFlight, ordcolor, nextOrdered, ordered, ordseq, orderr, orig,
             rq, barriers, h)
    }

    ghost predicate Valid()
      reads this
    {
      Core(S())
    }

    constructor (mode: bv8)
      requires KnownMode(mode)
      ensures S() == Init(mode) && Valid()
    {
      queue, sched, inFlight, ordcolor := [], {}, 0, false;
      nextOrdered, ordered, ordseq, orderr, orig := mode, mode, 0, 0, 0;
      rq := Store([], NO_ATTR, NO_ATTR, NO_ATTR);
      driver, barriers, h, asked := {}, 0, History(0, {}, 0, {}, []), 0;
      new;
      InitCore(mode);
    }

    // ------------------------------------------------------ elevator.c

    /** The backward walk of elv_dispatch_sort. */
    method DispatchSort(x: Id, boundary: nat)
      requires x in sched
      modifies this`queue, this`sched
      ensures S() == DispatchOne(old(S()), SortIn(x, boundary))
    {
      var p := |queue|;
      assert queue[..p] == queue;
      while p > 0 && !SortStop(At(rq, queue[p - 1]), At(rq, x), boundary)
        invariant 0 <= p <= |queue|
        invariant SortPos(rq, queue, x, boundary) == SortPos(rq, queue[..p], x, boundary)
      {
        assert queue[..p][..p - 1] == queue[..p - 1];
        p := p - 1;
      }
      queue, sched := queue[..p] + [x] + queue[p..], sched - {x};
    }

    /** elv_dispatch_add_tail. */
    method DispatchTail(x: Id)
      requires x in sched
      modifies this`queue, this`sched
      ensures S() == DispatchOne(old(S()), AtTail(x))
    {
      assert queue[..|queue|] + [x] + queue[|queue|..] == queue + [x];
      queue, sched := queue + [x], sched - {x};
    }

    /** The scheduler gives up a request in one of the two ways. */
    method Dispatch(x: Id) returns (ghost d: Barrier.Dispatch)
      requires x in sched
      modifies this`queue, this`sched
      ensures d.rq == x && S() == DispatchOne(old(S()), d)
    {
      if * {
        var boundary: nat := *;
        d := SortIn(x, boundary);
        DispatchSort(x, boundary);
      } else {
        d := AtTail(x);
        DispatchTail(x);
      }
    }

    /** elv_drain_elevator: forced dispatch until the scheduler holds nothing. */
    method DrainElevator() returns (ghost order: seq<Dispatch>)
      modifies this`queue, this`sched
      ensures sched == {}
      ensures DrainsTo(old(sched), order, {}) && S() == Drain(old(S()), order)
    {
      order := [];
      while sched != {}
        invariant DrainsTo(old(sched), order, sched)
        invariant S() == Drain(old(S()), order)
        decreases sched
      {
        var x :| x in sched;
        ghost var held := sched;
        ghost var d := Dispatch(x);
        DrainSnoc(old(S()), order, d, held);
        order := order + [d];
      }
    }

    /** __elv_add_request for a file system request. */
    method AddRequest(a: NewRequest) returns (ghost order: seq<Dispatch>)
      modifies this
      ensures Enabled(old(S()), Add(a, order)) && S() == Barrier.AddRequest(old(S()), a, order)
    {
      order := [];
      var color := ordcolor;
      if a.hard {
        ordcolor := !ordcolor;
      }
      ghost var s := S();
      assert s == old(S()).(ordcolor := ordcolor);
      if GoesBack(a) {
        order := DrainElevator();
        DrainColor(old(S()), order, ordcolor);
        DrainColor(old(S()), order, color);
        assert old(S()).(ordcolor := color) == old(S());
        s := Drain(old(S()), order);
      }
      assert S() == s.(ordcolor := ordcolor);
      Enqueue(a, color);
    }

    /** elv_insert: barriers and requests the scheduler does not know go to the back. */
    method Enqueue(a: NewRequest, color: bool)
      requires ordcolor == (if a.hard then !color else color)
      modifies this
      ensures S() == Insert(old(S()).(ordcolor := color), a)
    {
      var x := Rq(|rq.rqs|);
      if GoesBack(a) {
        queue := queue + [x];
      } else {
        sched := sched + {x};
      }
      rq := rq.(rqs := rq.rqs + [Attr(barriers, a.sector, a.write, a.discard, a.empty,
                                      a.hard, GoesBack(a), false, color)]);
      barriers, h := if a.hard then barriers + 1 else barriers, h.(log := h.log + [Added(x.n, a.hard)]);
    }

    /** The forward walk of ELEVATOR_INSERT_REQUEUE, and elv_requeue_request around it. */
    method Requeue(x: Id)
      requires x in driver
      modifies this
      ensures S() == Barrier.Requeue(old(S()), x)
    {
      var p := RequeueWalk(x);
      if Accounted(rq, x) {
        inFlight := inFlight - 1;
      }
      rq := SetAt(rq, x, At(rq, x).(started := false, soft := true));
      queue := queue[..p] + [x] + queue[p..];
      driver, h := driver - {x}, h.(log := h.log + [Requeued(x, if x.Rq? then x.n else orig)]);
    }

    method RequeueWalk(x: Id) returns (p: nat)
      ensures p == if ordseq == 0 then 0 else RequeuePos(S(), queue, x)
    {
      if ordseq == 0 {
        return 0;
      }
      p := 0;
      while p < |queue| && !(Seq(x) <= Seq(queue[p]))
        invariant 0 <= p <= |queue|
        invariant forall i | 0 <= i < p :: Seq(queue[i]) < Seq(x)
      {
        p := p + 1;
      }
      RequeuePosOnly(S(), queue, x, p);
    }

    /** blk_ordered_req_seq. */
    function Seq(x: Id): (p: bv8)
      reads this
      ensures p == ReqSeq(S(), x)
    {
      if !x.Rq? then Phase(x)
      else if At(rq, x).color == At(rq, Rq(orig)).color then SEQ_DRAIN
      else SEQ_DONE
    }

    // --------------------------------------------------- blk-barrier.c

    /** q->orderr keeps the first error. */
    method RecordError(error: int)
      modifies this`orderr, this`h
      ensures S() == Barrier.RecordError(old(S()), error)
    {
      if error != 0 {
        h := h.(log := h.log + [Failed(orig, error)]);
        if orderr == 0 {
          orderr := error;
        }
      }
    }

    method Advance(bits: bv8) returns (complete: bool)
      modifies this`ordseq, this`h
      ensures S() == Barrier.Advance(old(S()), bits)
      ensures complete == (CurSeq(old(ordseq) | bits) == SEQ_DONE)
    {
      hide CurSeq, EndBarrier;
      var cur := CurSeq(ordseq | bits);
      if cur != SEQ_DONE {
        ordseq := ordseq | bits;
        return false;
      }
      ordseq, h := 0, EndBarrier(h, orig, orderr);
      return true;
    }

    /** blk_ordered_complete_seq; the caller shows that its BUG_ON is not reached. */
    method CompleteSeq(bits: bv8, error: int) returns (complete: bool)
      requires ordseq & bits == 0
      modifies this`orderr, this`ordseq, this`h
      ensures S() == Barrier.CompleteSeq(old(S()), bits, error)
      ensures complete == (CurSeq(old(ordseq) | bits) == SEQ_DONE)
    {
      RecordError(error);
      complete := Advance(bits);
    }

    /** start_ordered's queueing of the proxies; as they are stacked at the head, last phase first. */
    method StackProxies(a: Attr) returns (skip: bv8, found: bool)
      modifies this`queue, this`rq
      ensures queue == Proxies(ordered) + old(queue)
      ensures rq == Stacked(old(rq), ordered, a)
      ensures skip | SEQ_DRAIN == Skip(ordered, 0) && skip & SEQ_DRAIN == 0
      ensures found == (Proxies(ordered) != [])
    {
      skip, found := 0, false;
      if ordered & DO_POSTFLUSH != 0 {
        rq := rq.(post := ProxyAttr(PostFlush, a));
        queue, found := [PostFlush] + queue, true;
      } else {
        skip := skip | SEQ_POSTFLUSH;
      }
      if ordered & DO_BAR != 0 {
        rq := rq.(bar := ProxyAttr(Bar, a));
        queue, found := [Bar] + queue, true;
      } else {
        skip := skip | SEQ_BAR;
      }
      if ordered & DO_PREFLUSH != 0 {
        rq := rq.(pre := ProxyAttr(PreFlush, a));
        queue, found := [PreFlush] + queue, true;
      } else {
        skip := skip | SEQ_PREFLUSH;
      }
    }

    /** start_ordered up to the completion of the skipped phases. */
    method BeginOrdered() returns (skip: bv8, found: bool)
      requires Valid() && AtHead(S())
      modifies this
      ensures asked == old(asked)
      ensures S() == Barrier.BeginOrdered(old(S()))
      ensures skip == Skip(ordered, inFlight)
      ensures found == (Proxies(ordered) != [] && !Drains(ordered, inFlight))
    {
      hide Core, Skip, Proxies, OrderedBits.Masked, Stacked, Drains, Barrier.BeginOrdered, Accounted;
      BeginOrderedIs(S());
      var x := queue[0];
      var a := At(rq, x);
      orderr, ordered, ordseq := 0, Masked(nextOrdered, a.empty), ordseq | SEQ_STARTED;
      queue, orig := queue[1..], x.n;
      skip, found := StackProxies(a);
      SkipWhole(ordered, inFlight, skip);
      if Drains(ordered, inFlight) {
        found := false;
      } else {
        skip := skip | SEQ_DRAIN;
      }
      h := h.(begun := ordered, finished := {}, log := h.log + [Began(x.n, ordered)]);
    }

    /** start_ordered. */
    method StartOrdered() returns (v: Verdict)
      requires Valid() && AtHead(S())
      modifies this
      ensures asked == old(asked)
      ensures S() == Barrier.StartOrdered(old(S()))
      ensures v == StartVerdict(old(S()))
    {
      var skip, found := BeginOrdered();
      SkipBits(ordered, inFlight);
      var complete := CompleteSeq(skip, 0);
      v := if complete then Gone else if found then Serve else Wait;
    }

    /** blk_do_ordered on the head of the queue. */
    method DoOrdered() returns (v: Verdict)
      requires Valid() && queue != []
      modifies this
      ensures asked == old(asked)
      ensures (S(), v) == Barrier.DoOrdered(old(S()))
    {
      assert queue[0] in Items(S());
      var x := queue[0];
      if ordseq == 0 {
        if !x.Rq? || !IsBarrier(rq, x) {
          v := Serve;
        } else if nextOrdered != ORDERED_NONE {
          v := StartOrdered();
        } else {
          queue := queue[1..];
          h := EndBarrier(h, x.n, -EOPNOTSUPP);
          v := Gone;
        }
      } else if ordered & BY_TAG != 0 {
        v := if IsBarrier(rq, x) && x != Bar then Wait else Serve;
      } else {
        v := if Seq(x) > CurSeq(ordseq) then Wait else Serve;
      }
    }

    /** One pass over the head, marked started if it is served. */
    method PeekHead() returns (v: Verdict)
      requires Valid() && queue != []
      modifies this
      ensures asked == old(asked)
      ensures S() == Peek(old(S())) && v == Barrier.DoOrdered(old(S())).1
      ensures v == Gone ==> |queue| < |old(queue)| && sched == old(sched)
      ensures v == Serve ==> queue != [] && At(rq, queue[0]).started
    {
      GoneShrinks(S());
      if Barrier.DoOrdered(S()).1 == Serve { ServedStarted(S()); }
      v := DoOrdered();
      if v == Serve {
        rq := SetAt(rq, queue[0], At(rq, queue[0]).(started := true));
      }
    }

    /** A call of the scheduler's dispatch function: it gives up as many requests as it likes. */
    method DispatchSome(ghost s0: QState, ghost before: seq<Event>) returns (ghost trace: seq<Event>)
      requires Valid() && queue == [] && Run(s0, before) && S() == After(s0, before)
      modifies this`queue, this`sched, this`asked
      ensures Valid() && Run(s0, trace) && S() == After(s0, trace) && asked == old(asked) + 1
      ensures sched <= old(sched) && (sched == old(sched) ==> queue == old(queue))
    {
      trace, asked := before, asked + 1;
      while sched != {}
        invariant Valid() && Run(s0, trace) && S() == After(s0, trace) && asked == old(asked) + 1
        invariant sched <= old(sched) && (sched == old(sched) ==> queue == old(queue))
        decreases sched
      {
        if * { return; }
        var x :| x in sched;
        ghost var s := S();
        ghost var d := Dispatch(x);
        StepCore(s, Dispatching(d));
        RunSnoc(s0, trace, Dispatching(d));
        trace := trace + [Dispatching(d)];
      }
    }

    /**
      __elv_next_request under blk_peek_request: dispatch whenever the queue runs empty.  A request
      is served only from the head and by the verdict of blk_do_ordered, and none is served only
      if that verdict was to wait or the scheduler was asked and gave up nothing.
    */
    method PeekRequest() returns (served: bool, ghost trace: seq<Event>, ghost last: QState)
      requires Valid()
      modifies this
      ensures Valid() && Run(old(S()), trace) && S() == After(old(S()), trace)
      ensures served ==> LooksAt(old(S()), trace, last) && S() == Peek(last) && Barrier.DoOrdered(last).1 == Serve
      ensures served ==> queue != [] && At(rq, queue[0]).started
      ensures !served ==>
                || (LooksAt(old(S()), trace, last) && S() == Peek(last) && Barrier.DoOrdered(last).1 == Wait)
                || (queue == [] && asked > old(asked))
      ensures old(queue) != [] && Barrier.DoOrdered(old(S())).1 != Gone ==>
                S() == Peek(old(S())) && served == (Barrier.DoOrdered(old(S())).1 == Serve)
      ensures old(ordseq) == 0 && old(queue) != [] && !IsBarrier(old(rq), old(queue[0])) ==>
                served && queue == old(queue) && At(rq, queue[0]).started
    {
      hide Core, Barrier.DoOrdered, Peek, Enabled;
      PlainServed(S());
      trace, served, last := [], false, S();
      ghost var first := true;
      while true
        invariant Valid() && asked >= old(asked) && !served
        invariant Run(old(S()), trace) && S() == After(old(S()), trace)
        invariant first ==> S() == old(S()) && trace == []
        invariant !first && old(queue) != [] ==> Barrier.DoOrdered(old(S())).1 == Gone
        decreases sched, |queue|
      {
        if queue != [] {
          last := S();
          Looking(old(S()), trace, last);
          trace := trace + [Peeking];
          var v := PeekHead();
          if v != Gone {
            served := v == Serve;
            return;
          }
        } else {
          trace := DispatchSome(old(S()), trace);
          if queue == [] { return; }
        }
        first := false;
      }
    }

    /** blk_start_request on a request that a peek has shown. */
    method Start(p: nat)
      requires p < |queue| && At(rq, queue[p]).started
      modifies this
      ensures S() == Barrier.Start(old(S()), p)
    {
      var x := queue[p];
      queue := queue[..p] + queue[p + 1..];
      if Accounted(rq, x) {
        inFlight := inFlight + 1;
      }
      driver, h := driver + {x}, h.(log := h.log + [Handed(x, if x.Rq? then x.n else orig)]);
    }

    /** elv_completed_request, first half. */
    method Release(x: Id)
      modifies this`inFlight, this`driver, this`h
      ensures S() == Barrier.Release(old(S()), x)
    {
      if Accounted(rq, x) {
        inFlight := inFlight - 1;
      }
      driver := driver - {x};
      h := h.(done := if x.Rq? then h.done + {x.n} else h.done,
              finished := if x.Rq? then h.finished else h.finished + {x},
              log := h.log + [Finished(x, if x.Rq? then x.n else orig)]);
    }

    /** elv_completed_request: then see whether the drain phase is over. */
    method CompletedRequest(x: Id)
      modifies this
      ensures S() == CheckDrained(Barrier.Release(old(S()), x))
    {
      Release(x);
      if ordseq != 0 && inFlight == 0 && CurSeq(ordseq) == SEQ_DRAIN &&
         (queue == [] || Seq(queue[0]) > SEQ_DRAIN) {
        DrainClear(ordseq);
        var _ := CompleteSeq(SEQ_DRAIN, 0);
      }
    }

    /** The end of a request: __blk_put_request, or one of the three end_io functions. */
    method Finish(x: Id, error: int)
      requires Valid() && x in driver
      modifies this
      ensures S() == Barrier.Finish(old(S()), x, error)
    {
      ghost var s := S();
      CompletedRequest(x);
      if !x.Rq? {
        ReleasedPlaces(s, x);
        ReleasedProxy(s, x);
        ProxyCompleted(Barrier.Release(s, x), x);
        var _ := CompleteSeq(Phase(x), error);
      }
    }
  }

  lemma {:induction false} DrainSnoc(s: QState, order: seq<Dispatch>, d: Dispatch, rest: set<Id>)
    requires DrainsTo(s.sched, order, rest) && d.rq in rest
    ensures DrainsTo(s.sched, order + [d], rest - {d.rq})
    ensures Drain(s, order + [d]) == DispatchOne(Drain(s, order), d)
    decreases |order|
  {
    if order != [] {
      assert (order + [d])[0] == order[0] && (order + [d])[1..] == order[1..] + [d];
      DrainSnoc(DispatchOne(s, order[0]), order[1..], d, rest);
    }
  }

  /** The colour of the queue, toggled before the drain, plays no part in it. */
  lemma {:induction false} DrainColor(s: QState, order: seq<Dispatch>, color: bool)
    ensures Drain(s.(ordcolor := color), order) == Drain(s, order).(ordcolor := color)
    decreases |order|
  {
    if order != [] {
      DrainColor(DispatchOne(s, order[0]), order[1..], color);
    }
  }

  /** The last event of a run is a look at the head of the queue, in the state `last`. */
  ghost predicate LooksAt(s: QState, events: seq<Event>, last: QState) {
    && events != [] && events[|events| - 1] == Peeking
    && Run(s, events[..|events| - 1]) && last == After(s, events[..|events| - 1]) && last.queue != []
  }

  lemma Looking(s: QState, events: seq<Event>, last: QState)
    requires Run(s, events) && last == After(s, events) && last.queue != [] && Core(last)
    ensures LooksAt(s, events + [Peeking], last)
    ensures Run(s, events + [Peeking]) && After(s, events + [Peeking]) == Peek(last) && Core(Peek(last))
  {
    hide Core, Peek;
    StepCore(last, Peeking);
    RunSnoc(s, events, Peeking);
    assert (events + [Peeking])[..|events|] == events;
  }

  lemma ServedStarted(s: QState)
    requires Core(s) && s.queue != [] && DoOrdered(s).1 == Serve
    ensures Peek(s).queue != [] && At(Peek(s).rq, Peek(s).queue[0]).started
  {
    hide DoOrdered, Conserved, Waiting, Bits;
    ServedNotHard(s);
    var t := DoOrdered(s).0;
    BookBounds(t);
    assert t.queue[0] in t.queue;
  }

  /** With no sequence in progress, what is not a barrier is served where it is. */
  lemma PlainServed(s: QState)
    requires Core(s)
    ensures s.ordseq == 0 && s.queue != [] && !IsBarrier(s.rq, s.queue[0]) ==>
              DoOrdered(s).1 == Serve && Peek(s).queue == s.queue
  {
  }

  lemma {:induction false} RunSnoc(s: QState, events: seq<Event>, e: Event)
    requires Run(s, events) && Enabled(After(s, events), e)
    ensures Run(s, events + [e]) && After(s, events + [e]) == Step(After(s, events), e)
    decreases |events|
  {
    if events == [] {
      assert (events + [e])[1..] == [];
    } else {
      assert (events + [e])[0] == events[0] && (events + [e])[1..] == events[1..] + [e];
      RunSnoc(Step(s, events[0]), events[1..], e);
    }
  }

  /** The bit that elv_completed_request sets is clear. */
  lemma DrainClear(ordseq: bv8)
    requires ordseq != 0 && CurSeq(ordseq) == SEQ_DRAIN
    ensures ordseq & SEQ_DRAIN == 0
  {
  }

  /** A barrier that blk_do_ordered disposes of at once leaves nothing in the queue. */
  lemma GoneShrinks(s: QState)
    requires Core(s) && s.queue != []
    ensures var (t, v) := DoOrdered(s);
            && t.sched == s.sched
            && (v == Gone ==> |t.queue| < |s.queue|)
  {
    assert s.queue[0] in Items(s);
    if AtHead(s) && s.nextOrdered != ORDERED_NONE {
      var b := BeginOrdered(s);
      BeginPlaces(s);
      SkipBits(b.ordered, b.inFlight);
      CurCases(SEQ_STARTED | Skip(b.ordered, b.inFlight));
    }
  }

  /** The walk ends at the one position its conditions describe. */
  lemma RequeuePosOnly(s: QState, queue: seq<Id>, x: Id, p: nat)
    requires p <= |queue|
    requires forall i | 0 <= i < p :: ReqSeq(s, queue[i]) < ReqSeq(s, x)
    requires p < |queue| ==> ReqSeq(s, x) <= ReqSeq(s, queue[p])
    ensures p == RequeuePos(s, queue, x)
  {
    var q := RequeuePos(s, queue, x);
    assert q == |queue| || ReqSeq(s, x) <= ReqSeq(s, queue[q]);
    assert p == |queue| || ReqSeq(s, x) <= ReqSeq(s, queue[p]);
  }

  /** Whether the drain is skipped is settled after the phases. */
  lemma SkipWhole(mode: bv8, inFlight: int, skip: bv8)
    requires skip | SEQ_DRAIN == Skip(mode, 0) && skip & SEQ_DRAIN == 0
    ensures Skip(mode, inFlight) == if Drains(mode, inFlight) then skip else skip | SEQ_DRAIN
  {
  }
}
