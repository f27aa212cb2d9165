/**
  When a drain gets stuck.  A queue that is ordered by tags lets requests pass a barrier, so an
  old request, of either colour, may still be in flight when an empty barrier has the queue
  drained after all.  Requeued as the last one in flight, it is taken for a request of the next
  epoch if its colour is not that of the barrier, and then nobody ends the drain.
*/
module BarrierStuck {
  import opened NumberLists
  import opened OrderedBits
  import opened Barrier
  import opened BarrierInvariants
  import opened BarrierOrder
  import opened BarrierLog
  import opened BarrierFence
  import opened BarrierProgress

  /** The kind of ordering is not switched in the middle of a sequence. */
  predicate SteadyEvent(s: QState, e: Event) {
    e.SetOrdered? && s.ordseq != 0 ==> (ByTag(e.mode) <==> ByTag(s.ordered))
  }

  predicate Steady(s: QState, events: seq<Event>)
    requires Run(s, events)
    decreases |events|
  {
    events == [] || (SteadyEvent(s, events[0]) && Steady(Step(s, events[0]), events[1..]))
  }

  // ------------------------------------------------------ once stuck

  /** A request that is dispatched to the head while a sequence is in progress must wait for its end. */
  lemma DispatchedLate(s: QState, d: Dispatch)
    requires Core(s) && Passed(s) && s.ordseq != 0 && d.rq in s.sched && DispatchPos(s.rq, s.queue, d) == 0
    ensures ReqSeq(s, d.rq) == SEQ_DONE
  {
    assert d.rq in Items(s);
    RqEpoch(s, d.rq);
    NoHardsLeft(s, 0);
    NextEpochSeq(s, d.rq);
  }

  lemma StuckDispatch(s: QState, d: Dispatch)
    requires Core(s) && Fence(s) && Stuck(s) && d.rq in s.sched
    ensures Stuck(DispatchOne(s, d))
  {
    hide Book, Fenced, InStep, SortPos, ReqSeq;
    var p := DispatchPos(s.rq, s.queue, d);
    var t := DispatchOne(s, d);
    InsertMembers(s.queue, p, d.rq);
    SameSeqs(s, t);
    if p == 0 { DispatchedLate(s, d); }
  }

  /** Only what no barrier follows can be overtaken by a dispatched request. */
  lemma NoHardsLeft(s: QState, p: nat)
    requires Core(s) && p <= |s.queue| && NoHards(s, p)
    requires forall i | p <= i < |s.queue| :: !At(s.rq, s.queue[i]).hard
    ensures NextBarrier(s) == s.barriers
  {
    if NextBarrier(s) < s.barriers {
      var i := HardsAt(s.rq.rqs, s.queue, 0);
    }
  }

  lemma {:induction false} StuckDrain(s: QState, order: seq<Dispatch>)
    requires Core(s) && Fence(s) && Stuck(s) && DrainsTo(s.sched, order, {})
    ensures Stuck(Drain(s, order)) && Drain(s, order).orig == s.orig
    decreases |order|
  {
    if order != [] {
      MoveCore(s, Dispatching(order[0]));
      DispatchFence(s, order[0]);
      StuckDispatch(s, order[0]);
      StuckDrain(DispatchOne(s, order[0]), order[1..]);
    }
  }

  lemma StuckInsert(s: QState, a: NewRequest)
    requires Core(s) && Stuck(s)
    ensures Stuck(Insert(s, a)) && Insert(s, a).orig == s.orig
  {
    hide Core, ReqSeq;
    InsertOld(s, a);
    InsertSeqs(s, a, s.queue[0]);
    assert s.queue[0] in s.queue;
  }

  lemma StuckAdd(s: QState, a: NewRequest, order: seq<Dispatch>)
    requires Core(s) && Fence(s) && Stuck(s) && Enabled(s, Add(a, order))
    ensures Stuck(AddRequest(s, a, order)) && AddRequest(s, a, order).orig == s.orig
  {
    hide Core, Fence, Stuck;
    if GoesBack(a) {
      DrainCore(s, order, {});
      StuckDrain(s, order);
    }
    StuckInsert(if GoesBack(a) then Drain(s, order) else s, a);
  }

  lemma StuckPeek(s: QState)
    requires Core(s) && Stuck(s)
    ensures Peek(s) == s
  {
    hide Conserved, Hards;
    CurCases(s.ordseq);
  }

  /** No step of a run gets a stuck sequence going again. */
  lemma StuckStep(s: QState, e: Event)
    requires Core(s) && Fence(s) && Stuck(s) && Enabled(s, e) && SteadyEvent(s, e)
    ensures Stuck(Step(s, e)) && Step(s, e).orig == s.orig
  {
    match e {
      case Add(a, order) => StuckAdd(s, a, order);
      case Dispatching(d) => StuckDispatch(s, d);
      case Peeking => StuckPeek(s);
      case SetOrdered(_) => SameSeqs(s, Step(s, e));
    }
  }

  /** A barrier whose drain is stuck is never ended. */
  lemma {:induction false} StuckForever(s: QState, events: seq<Event>)
    requires Core(s) && Fence(s) && Logged(s) && Stuck(s) && Run(s, events) && Steady(s, events)
    ensures var t := After(s, events);
            Stuck(t) && t.orig == s.orig && !EndedIn(t.h.log, s.orig)
    decreases |events|
  {
    hide Core, Fence, Logged, Stuck;
    if events == [] {
      StuckNotEnded(s);
    } else {
      StepCore(s, events[0]);
      StepFence(s, events[0]);
      StepLogged(s, events[0]);
      StuckStep(s, events[0]);
      StuckForever(Step(s, events[0]), events[1..]);
    }
  }

  lemma StuckNotEnded(s: QState)
    requires Core(s) && Logged(s) && Stuck(s)
    ensures !EndedIn(s.h.log, s.orig)
  {
    assert s.orig !in s.h.done;
  }

  // --------------------------------------------------- when a drain gets stuck

  /**
    The drain of the sequence in progress goes on: everything in flight and everything that may be
    taken has the colour of the barrier, and what is put back goes to the head.
  */
  ghost predicate Flowing(s: QState) {
    && !ByTag(s.ordered)
    && (forall x | x in s.driver :: ReqSeq(s, x) == SEQ_DRAIN)
    && (forall x | x in s.queue && At(s.rq, x).started :: ReqSeq(s, x) == SEQ_DRAIN)
    && (forall x | x in s.queue && x.Rq? :: At(s.rq, x).soft || At(s.rq, x).epoch > s.h.ended)
    && (s.driver == {} ==> s.queue != [] && ReqSeq(s, s.queue[0]) == SEQ_DRAIN)
  }

  /** Barrier `n` has been ended, or its sequence is past its drain, or its drain goes on. */
  ghost predicate Calm(s: QState, n: nat) {
    n in s.h.done || (Current(s, n) && (IsDrained(s) || Flowing(s)))
  }

  /** A sequence in progress goes on or ends, and is not drained twice. */
  ghost predicate GoesOn(s: QState, t: QState) {
    && s.h.done <= t.h.done
    && (s.ordseq != 0 ==>
          if t.ordseq == 0 then s.orig in t.h.done
          else t.orig == s.orig && (IsDrained(s) ==> IsDrained(t)))
  }

  lemma FinishGoesOn(s: QState, x: Id, error: int)
    requires Core(s) && x in s.driver
    ensures GoesOn(s, Finish(s, x, error))
  {
    hide Core;
    if x.Rq? {
      FinishRqCompletes(s, x, error);
    } else {
      FinishProxyCompletes(s, x, error);
      ProxyChecked(s, x);
    }
  }

  lemma PeekGoesOn(s: QState)
    requires Core(s) && s.queue != []
    ensures GoesOn(s, Peek(s))
  {
    hide Core, Proxies, Masked, ProxyAttr, Skip;
    HeadKinds(s);
  }

  lemma AddGoesOn(s: QState, a: NewRequest, order: seq<Dispatch>)
    requires Core(s) && Enabled(s, Add(a, order))
    ensures GoesOn(s, AddRequest(s, a, order))
  {
    hide Core, Drain;
    if GoesBack(a) { DrainCore(s, order, {}); }
  }

  lemma SequenceGoesOn(s: QState, e: Event)
    requires Core(s) && Enabled(s, e)
    ensures GoesOn(s, Step(s, e))
  {
    hide Core, Peek, AddRequest, Finish;
    match e {
      case Add(a, order) => AddGoesOn(s, a, order);
      case Peeking => PeekGoesOn(s);
      case Finishing(x, error) => FinishGoesOn(s, x, error);
      case _ =>
    }
  }

  lemma SchedFlags(s: QState, x: Id)
    requires Core(s) && x in s.sched
    ensures x.Rq? && !At(s.rq, x).started
  {
  }

  lemma FlowDispatch(s: QState, d: Dispatch)
    requires Core(s) && Fence(s) && s.ordseq != 0 && Flowing(s) && d.rq in s.sched
    ensures Flowing(DispatchOne(s, d))
  {
    hide Core, Fenced, InStep, SortPos, ReqSeq;
    var p := DispatchPos(s.rq, s.queue, d);
    var t := DispatchOne(s, d);
    InsertMembers(s.queue, p, d.rq);
    SameSeqs(s, t);
    NewestLate(s);
    SchedFlags(s, d.rq);
    if p == 0 && s.queue != [] {
      assert s.queue[0] in s.queue;
      HeadLate(s);
    }
  }

  lemma HeadLate(s: QState)
    requires Core(s) && Fence(s) && s.ordseq != 0 && s.queue != []
    requires s.queue[0].Rq? && At(s.rq, s.queue[0]).epoch > s.h.ended
    ensures ReqSeq(s, s.queue[0]) == SEQ_DONE
  {
    assert s.queue[0] in Items(s);
    FrontEpoch(s, 0);
    NextEpochSeq(s, s.queue[0]);
  }

  lemma {:induction false} FlowDrain(s: QState, order: seq<Dispatch>)
    requires Core(s) && Fence(s) && s.ordseq != 0 && Flowing(s) && DrainsTo(s.sched, order, {})
    ensures Flowing(Drain(s, order))
    decreases |order|
  {
    if order != [] {
      MoveCore(s, Dispatching(order[0]));
      DispatchFence(s, order[0]);
      FlowDispatch(s, order[0]);
      FlowDrain(DispatchOne(s, order[0]), order[1..]);
    }
  }

  lemma InsertDriver(s: QState, a: NewRequest, x: Id)
    requires Core(s) && s.ordseq != 0 && x in s.driver
    ensures ReqSeq(Insert(s, a), x) == ReqSeq(s, x)
  {
    hide Waiting, Hards, Places;
    InsertFacts(s, a);
    assert x in Items(s);
  }

  lemma NewestLate(s: QState)
    requires Core(s) && s.ordseq != 0
    ensures s.barriers > s.h.ended
  {
    assert At(s.rq, Rq(s.orig)) == s.rq.rqs[s.orig];
  }

  lemma FlowInsert(s: QState, a: NewRequest)
    requires Core(s) && s.ordseq != 0 && Flowing(s)
    ensures Flowing(Insert(s, a))
  {
    hide Core, ReqSeq;
    var t := Insert(s, a);
    InsertOld(s, a);
    NewestLate(s);
    forall x | x in s.queue ensures ReqSeq(t, x) == ReqSeq(s, x) { InsertSeqs(s, a, x); }
    forall x | x in s.driver ensures ReqSeq(t, x) == ReqSeq(s, x) { InsertDriver(s, a, x); }
    assert s.queue != [] ==> s.queue[0] in s.queue;
  }

  lemma FlowAdd(s: QState, a: NewRequest, order: seq<Dispatch>)
    requires Core(s) && Fence(s) && s.ordseq != 0 && Flowing(s) && Enabled(s, Add(a, order))
    ensures Flowing(AddRequest(s, a, order))
  {
    hide Core, Fence, Flowing;
    if GoesBack(a) {
      DrainCore(s, order, {});
      FlowDrain(s, order);
    }
    FlowInsert(if GoesBack(a) then Drain(s, order) else s, a);
  }

  lemma FlowStart(s: QState, p: nat)
    requires Core(s) && Flowing(s) && p < |s.queue| && At(s.rq, s.queue[p]).started
    ensures Flowing(Start(s, p))
  {
    hide Book, ReqSeq;
    RemoveMembers(s.queue, p);
    SameSeqs(s, Start(s, p));
    assert s.queue[p] in s.queue;
  }

  /** What has the colour of the barrier is put back at the head. */
  lemma BackToHead(s: QState, x: Id)
    requires s.ordseq != 0 && ReqSeq(s, x) == SEQ_DRAIN
    ensures TakeBack(s, x).queue == [x] + s.queue
  {
    if s.queue != [] { SeqBound(s, s.queue[0]); }
    assert InsertAt(s.queue, 0, x) == [x] + s.queue;
  }

  lemma FlowRequeue(s: QState, x: Id)
    requires Core(s) && s.ordseq != 0 && Flowing(s) && x in s.driver
    ensures Flowing(Requeue(s, x))
  {
    hide Core, ReqSeq, RequeuePos, InsertAt, SetAt;
    RequeuedFlags(s, x);
    RequeuedSeqs(s, x);
    BackToHead(s, x);
  }

  lemma RequeuedSeqs(s: QState, x: Id)
    ensures forall y: Id :: ReqSeq(Requeue(s, x), y) == ReqSeq(s, y)
  {
    FlagsAttrs(s.rq, x, At(s.rq, x).(started := false, soft := true));
    SameSeqs(s, Requeue(s, x));
  }

  lemma RequeuedFlags(s: QState, x: Id)
    requires Core(s) && x in s.driver
    ensures At(Requeue(s, x).rq, x).soft && !At(Requeue(s, x).rq, x).started
    ensures forall y: Id | y != x :: At(Requeue(s, x).rq, y) == At(s.rq, y)
  {
    hide Waiting, Hards;
    assert x in Items(s);
  }

  lemma FlowPeek(s: QState)
    requires Core(s) && s.ordseq != 0 && !IsDrained(s) && Flowing(s) && s.queue != []
    ensures Flowing(Peek(s))
  {
    hide Book, ReqSeq;
    var x := s.queue[0];
    FlagsAttrs(s.rq, x, At(s.rq, x).(started := true));
    SameSeqs(s, MarkStarted(s, x));
    DrainCur(s);
    SeqBound(s, x);
  }

  lemma DrainCur(s: QState)
    requires Core(s) && s.ordseq != 0 && !IsDrained(s)
    ensures CurSeq(s.ordseq) == SEQ_DRAIN
  {
    CurCases(s.ordseq);
  }

  lemma FlowFinish(s: QState, x: Id, error: int)
    requires Core(s) && s.ordseq != 0 && !IsDrained(s) && Flowing(s) && x in s.driver
    requires Finish(s, x, error).ordseq != 0 && !IsDrained(Finish(s, x, error))
    ensures Flowing(Finish(s, x, error))
  {
    hide Book, ReqSeq;
    var t := Finish(s, x, error);
    assert x.Rq? by { SeqOfProxies(s, x); }
    FinishRqCompletes(s, x, error);
    SameSeqs(s, t);
    FinishFlows(s, x, error);
  }

  lemma SeqOfProxies(s: QState, x: Id)
    ensures ReqSeq(s, x) == SEQ_DRAIN ==> x.Rq?
  {
  }

  lemma FinishFlows(s: QState, x: Id, error: int)
    requires Core(s) && s.ordseq != 0 && !IsDrained(s) && x in s.driver && x.Rq?
    requires Finish(s, x, error).ordseq != 0 && !IsDrained(Finish(s, x, error))
    ensures var t := Finish(s, x, error);
            t == Release(s, x) && (t.driver == {} ==> s.queue != [] && ReqSeq(s, s.queue[0]) == SEQ_DRAIN)
  {
    hide ReqSeq, Conserved, Waiting, Hards;
    var u := Release(s, x);
    if Drained(u) { OrBits(u.ordseq, SEQ_DRAIN); }
    if u.driver == {} {
      DrainCur(s);
      ReleasedPlaces(s, x);
      assert Acc(u.driver) == {};
      SameSeqs(s, u);
      if s.queue != [] { SeqBound(s, s.queue[0]); }
    }
  }

  lemma FlowStep(s: QState, e: Event)
    requires Core(s) && Fence(s) && s.ordseq != 0 && !IsDrained(s) && Flowing(s)
    requires Enabled(s, e) && SteadyEvent(s, e) && Step(s, e).ordseq != 0 && !IsDrained(Step(s, e))
    ensures Flowing(Step(s, e))
  {
    hide Core, Fence, Peek, AddRequest, Finish, Start, Requeue, DispatchOne, Flowing;
    match e {
      case Add(a, order) => FlowAdd(s, a, order);
      case Dispatching(d) => FlowDispatch(s, d);
      case Peeking => FlowPeek(s);
      case Starting(p) => FlowStart(s, p);
      case Requeueing(x) => FlowRequeue(s, x);
      case Finishing(x, error) => FlowFinish(s, x, error);
      case BarPart(_) => FlowSame(s, Step(s, e));
      case SetOrdered(_) => FlowSame(s, Step(s, e));
    }
  }

  lemma FlowSame(s: QState, t: QState)
    requires Flowing(s) && t.queue == s.queue && t.driver == s.driver && t.rq == s.rq && t.orig == s.orig
    requires t.h.ended == s.h.ended && (ByTag(t.ordered) <==> ByTag(s.ordered))
    ensures Flowing(t)
  {
    hide ReqSeq;
    SameSeqs(s, t);
  }

  lemma CalmStep(s: QState, e: Event, n: nat)
    requires Core(s) && Fence(s) && Calm(s, n) && Enabled(s, e) && SteadyEvent(s, e)
    ensures Calm(Step(s, e), n)
  {
    hide Core, Step, Fence, Flowing;
    SequenceGoesOn(s, e);
    var t := Step(s, e);
    if n !in s.h.done && t.ordseq != 0 && !IsDrained(t) { FlowStep(s, e); }
  }

  lemma {:induction false} CalmRun(s: QState, events: seq<Event>, n: nat)
    requires Core(s) && Fence(s) && Calm(s, n) && Run(s, events) && Steady(s, events)
    ensures Core(After(s, events)) && Calm(After(s, events), n)
    decreases |events|
  {
    hide Core, Fence, Calm;
    if events != [] {
      StepCore(s, events[0]);
      StepFence(s, events[0]);
      CalmStep(s, events[0], n);
      CalmRun(Step(s, events[0]), events[1..], n);
    }
  }

  lemma CalmNotStuck(s: QState, n: nat)
    requires Core(s) && Calm(s, n)
    ensures !(Stuck(s) && s.orig == n)
  {
  }

  /** A request in flight is of another colour than the barrier at the head of the queue. */
  ghost predicate OtherColour(s: QState)
    requires s.queue != []
  {
    exists x :: x in s.driver && At(s.rq, x).color != At(s.rq, s.queue[0]).color
  }

  lemma BeginSeq(s: QState, x: Id)
    requires Core(s) && AtHead(s) && x in s.driver
    ensures x.Rq?
    ensures ReqSeq(StartOrdered(s), x) ==
            if At(s.rq, x).color == At(s.rq, s.queue[0]).color then SEQ_DRAIN else SEQ_DONE
  {
    hide Core, Proxies, Masked, ProxyAttr;
    HeadFacts(s);
    assert x in Items(s);
  }

  /** Nothing in the queue of a sequence that has just begun is started or of an earlier epoch. */
  ghost predicate Late(s: QState) {
    forall x | x in s.queue :: !At(s.rq, x).started && (x.Rq? ==> At(s.rq, x).epoch > s.h.ended)
  }

  lemma BeginTail(s: QState, i: nat)
    requires Core(s) && Fence(s) && AtHead(s) && i < |s.queue[1..]|
    ensures var x := s.queue[1..][i];
            x.Rq? && At(BeginOrdered(s).rq, x) == At(s.rq, x) &&
            !At(s.rq, x).started && At(s.rq, x).epoch > s.h.ended
  {
    hide Core, Proxies, Masked, ProxyAttr, InStep;
    HeadFacts(s);
    TailIsRqs(s, i);
    assert Apart(s.rq, s.queue[0], s.queue[i + 1]);
  }

  lemma BeginLate(s: QState)
    requires Core(s) && Fence(s) && AtHead(s) && StartOrdered(s).ordseq != 0
    ensures Late(StartOrdered(s))
  {
    hide Core, Fence, Proxies, Masked, ProxyAttr;
    var b, t := BeginOrdered(s), StartOrdered(s);
    forall x | x in t.queue ensures !At(t.rq, x).started && (x.Rq? ==> At(t.rq, x).epoch > t.h.ended) {
      var i :| 0 <= i < |t.queue| && t.queue[i] == x;
      if i < |Proxies(b.h.begun)| {
        assert x in Proxies(b.h.begun);
        BeginProxies(s, x);
      } else {
        BeginTail(s, i - |Proxies(b.h.begun)|);
      }
    }
  }

  lemma CalmBegin(s: QState)
    requires Core(s) && Fence(s) && AtHead(s)
    requires ByTag(BeginOrdered(s).ordered) || !OtherColour(s)
    ensures Calm(StartOrdered(s), s.queue[0].n)
  {
    hide Core, Fence, BeginOrdered, ReqSeq;
    var t := StartOrdered(s);
    BeginIs(s);
    BeginSkips(s);
    BeginMode(s);
    if t.ordseq != 0 && !IsDrained(t) {
      BeginLate(s);
      forall x | x in t.driver ensures ReqSeq(t, x) == SEQ_DRAIN { BeginSeq(s, x); }
      InFlightDriver(s);
    }
  }

  lemma BeginIs(s: QState)
    requires AtHead(s)
    ensures StartOrdered(s).driver == s.driver && StartOrdered(s).orig == s.queue[0].n
    ensures StartOrdered(s).ordseq == 0 ==> s.queue[0].n in StartOrdered(s).h.done
  {
  }

  lemma InFlightDriver(s: QState)
    requires Core(s) && s.inFlight != 0
    ensures s.driver != {}
  {
    assert s.driver == {} ==> Acc(s.driver) == {};
  }

  // ------------------------------------------------- how a drain gets stuck

  lemma FinishOther(s: QState, x: Id, y: Id)
    requires Core(s) && x in s.driver && y in s.driver && x != y && x.Rq? && y.Rq?
    ensures Finish(s, y, 0) == Release(s, y)
  {
    hide Book;
    assert x in Acc(s.driver - {y});
    ReleasedPlaces(s, y);
  }

  /** Everything in flight but `x` is finished, and the drain still waits for `x`. */
  lemma {:induction false} FinishOthers(s: QState, x: Id) returns (es: seq<Event>)
    requires Core(s) && Fence(s) && x in s.driver && forall y | y in s.driver :: y.Rq?
    ensures Run(s, es) && Steady(s, es)
    ensures var t := After(s, es);
            && Core(t) && Fence(t) && t.driver == {x}
            && t.queue == s.queue && t.rq == s.rq && t.orig == s.orig && t.ordseq == s.ordseq
            && t.ordered == s.ordered && t.h.ended == s.h.ended
    decreases |s.driver|
  {
    hide Core, Fence, Finish;
    if s.driver == {x} {
      es := [];
    } else {
      var y :| y in s.driver && y != x;
      var e := Finishing(y, 0);
      FinishOther(s, x, y);
      StepCore(s, e);
      StepFence(s, e);
      var rest := FinishOthers(Step(s, e), x);
      es := [e] + rest;
      assert es[1..] == rest;
    }
  }

  lemma RequeueSticks(s: QState, x: Id)
    requires Core(s) && Fence(s) && s.ordseq != 0 && !IsDrained(s) && !ByTag(s.ordered) && s.driver == {x}
    requires ReqSeq(s, x) == SEQ_DONE && Late(s)
    ensures Stuck(Requeue(s, x)) && Requeue(s, x).orig == s.orig
  {
    hide Book, Fence, ReqSeq;
    var t := Requeue(s, x);
    FlagsAttrs(s.rq, x, At(s.rq, x).(started := false, soft := true));
    SameSeqs(s, t);
    RequeuedFlags(s, x);
    InsertMembers(s.queue, BackPos(s, x), x);
    if BackPos(s, x) > 0 {
      assert s.queue[0] in s.queue;
      if s.queue[0].Rq? { HeadLate(s); } else { SeqOfProxies(s, s.queue[0]); SeqBound(s, s.queue[0]); }
    }
  }

  lemma {:induction false} SteadySnoc(s: QState, es: seq<Event>, e: Event)
    requires Run(s, es) && Steady(s, es) && Enabled(After(s, es), e) && SteadyEvent(After(s, es), e)
    ensures Run(s, es + [e]) && Steady(s, es + [e]) && After(s, es + [e]) == Step(After(s, es), e)
    decreases |es|
  {
    if es == [] {
      assert es + [e] == [e];
    } else {
      assert (es + [e])[1..] == es[1..] + [e];
      SteadySnoc(Step(s, es[0]), es[1..], e);
    }
  }

  /** `events` lead to a state in which the drain of barrier `n` is stuck. */
  ghost predicate Sticks(s: QState, events: seq<Event>, n: nat) {
    Run(s, events) && Steady(s, events) && Stuck(After(s, events)) && After(s, events).orig == n
  }

  lemma OtherColourSticks(s: QState, x: Id) returns (es: seq<Event>)
    requires Core(s) && Fence(s) && AtHead(s) && s.nextOrdered != ORDERED_NONE && !ByTag(BeginOrdered(s).ordered)
    requires x in s.driver && At(s.rq, x).color != At(s.rq, s.queue[0]).color
    ensures Sticks(StartOrdered(s), es, s.queue[0].n)
  {
    hide Core, Fence, BeginOrdered, StartOrdered, Stuck, ReqSeq, Late, Requeue;
    var t := StartOrdered(s);
    BeginIs(s);
    BeginSkips(s);
    BeginMode(s);
    forall y | y in s.driver ensures y.Rq? { BeginSeq(s, y); }
    BeginSeq(s, x);
    BeginWaits(s, x);
    StartOrderedCore(s);
    StartOrderedFence(s);
    BeginLate(s);
    var others := FinishOthers(t, x);
    var u := After(t, others);
    LateSame(t, u);
    SameSeqs(t, u);
    RequeueSticks(u, x);
    SteadySnoc(t, others, Requeueing(x));
    es := others + [Requeueing(x)];
  }

  lemma LateSame(s: QState, t: QState)
    requires Late(s) && t.queue == s.queue && t.rq == s.rq && t.h.ended == s.h.ended
    ensures Late(t)
  {
  }

  /** With a request in flight, a drain-ordered sequence begins by waiting for it. */
  lemma BeginWaits(s: QState, x: Id)
    requires Core(s) && AtHead(s) && x in s.driver && BeginOrdered(s).ordered & BY_DRAIN != 0
    ensures StartOrdered(s).ordseq != 0 && !IsDrained(StartOrdered(s))
    ensures StartOrdered(s).ordered == BeginOrdered(s).ordered
  {
    hide Conserved, Waiting, Hards, Proxies, Masked, ProxyAttr;
    BeginPlaces(s);
    HeadFacts(s);
    assert x in Items(s);
    assert x in Acc(s.driver);
    var b := BeginOrdered(s);
    SkipBits(b.ordered, b.inFlight);
    CurCases(SEQ_STARTED | Skip(b.ordered, b.inFlight));
  }

  /**
    Whether the drain of a barrier can get stuck is decided when its sequence begins: it can if
    and only if the sequence is ordered by draining, as that of an empty barrier on a tag-ordered
    queue may be, and a request in flight has another colour than the barrier.
  */
  lemma DrainSticksIff(mode: bv8, events: seq<Event>)
    requires KnownMode(mode) && Run(Init(mode), events)
    ensures var s := After(Init(mode), events);
            AtHead(s) && s.nextOrdered != ORDERED_NONE ==>
              ((exists es: seq<Event> :: Sticks(StartOrdered(s), es, s.queue[0].n)) <==>
               !ByTag(Masked(s.nextOrdered, At(s.rq, s.queue[0]).empty)) && OtherColour(s))
  {
    hide Core, Fence, Logged, Sticks, StartOrdered;
    InitGood(mode);
    InitFence(mode);
    FenceKeeps(Init(mode), events);
    var s := After(Init(mode), events);
    if AtHead(s) && s.nextOrdered != ORDERED_NONE {
      if !ByTag(BeginOrdered(s).ordered) && OtherColour(s) {
        var x :| x in s.driver && At(s.rq, x).color != At(s.rq, s.queue[0]).color;
        var es := OtherColourSticks(s, x);
      } else {
        forall es: seq<Event> ensures !Sticks(StartOrdered(s), es, s.queue[0].n) { NeverSticks(s, es); }
      }
    }
  }

  lemma NeverSticks(s: QState, es: seq<Event>)
    requires Core(s) && Fence(s) && AtHead(s)
    requires ByTag(BeginOrdered(s).ordered) || !OtherColour(s)
    ensures !Sticks(StartOrdered(s), es, s.queue[0].n)
  {
    hide Core, Fence, StartOrdered, Calm, Stuck;
    StartOrderedCore(s);
    StartOrderedFence(s);
    CalmBegin(s);
    if Sticks(StartOrdered(s), es, s.queue[0].n) {
      CalmRun(StartOrdered(s), es, s.queue[0].n);
      CalmNotStuck(After(StartOrdered(s), es), s.queue[0].n);
    }
  }

  // ------------------------------------------------------------ an example

  const PLAIN := NewRequest(0, true, false, false, false, false, true)
  const BARRIER := NewRequest(0, true, false, false, true, false, true)
  const EMPTY_BARRIER := NewRequest(0, true, false, true, true, false, true)

  /**
    Request 0 is with the driver while barrier 1 comes and goes; then the empty barrier 2 has the
    queue drained, and request 0 is requeued.
  */
  const TAG_RUN: seq<Event> :=
    [Add(PLAIN, []), Dispatching(AtTail(Rq(0))), Peeking, Starting(0),
     Add(BARRIER, []), Peeking, Starting(0), Finishing(Bar, 0),
     Add(EMPTY_BARRIER, []), Peeking, Requeueing(Rq(0))]

  /** Request 0, and the two barriers. */
  function Plain(started: bool, soft: bool): (a: Attr) {
    Attr(0, 0, true, false, false, false, soft, started, false)
  }

  const FIRST := Attr(0, 0, true, false, false, true, true, false, false)
  const SECOND := Attr(1, 0, true, false, true, true, true, false, true)

  function OneRequest(started: bool): (m: Store) {
    Store([Plain(started, false)], NO_ATTR, NO_ATTR, NO_ATTR)
  }

  /** Request 0 has been added, dispatched and taken. */
  const TAKEN := QState([], {}, {Rq(0)}, 1, false, ORDERED_TAG, ORDERED_TAG, 0, 0, 0, OneRequest(true), 0,
                        History(0, {}, 0, {}, [Added(0, false), Handed(Rq(0), 0)]))

  /** Barrier 1 is with the driver, too. */
  const PASSING := QState([], {}, {Rq(0), Bar}, 2, true, ORDERED_TAG, ORDERED_TAG, 0x17, 0, 1,
                          Store([Plain(true, false), FIRST], NO_ATTR, FIRST.(started := true), NO_ATTR), 1,
                          History(0, {}, ORDERED_TAG, {}, TAKEN.h.log + [Added(1, true), Began(1, ORDERED_TAG), Handed(Bar, 1)]))

  /** Barrier 1 has been added, and its sequence has begun. */
  const ASKED := TAKEN.(queue := [Rq(1)], ordcolor := true, barriers := 1,
                        rq := TAKEN.rq.(rqs := [Plain(true, false), FIRST]),
                        h := TAKEN.h.(log := TAKEN.h.log + [Added(1, true)]))
  const BEGUN := PASSING.(queue := [Bar], driver := {Rq(0)}, inFlight := 1,
                          h := PASSING.h.(log := ASKED.h.log + [Began(1, ORDERED_TAG)]))

  /** Barrier 1 has been ended. */
  const PASSED := QState([], {}, {Rq(0)}, 1, true, ORDERED_TAG, ORDERED_TAG, 0, 0, 1, PASSING.rq, 1,
                         History(1, {1}, ORDERED_TAG, {Bar}, PASSING.h.log + [Finished(Bar, 1), Ended(1, 0)]))

  /** The sequence of barrier 2 drains the queue. */
  const DRAINING := QState([], {}, {Rq(0)}, 1, false, ORDERED_TAG, BY_DRAIN, 0x1d, 0, 2,
                           PASSED.rq.(rqs := [Plain(true, false), FIRST, SECOND]), 2,
                           History(1, {1}, BY_DRAIN, {}, PASSED.h.log + [Added(2, true), Began(2, BY_DRAIN)]))

  /** Barrier 2 has been added. */
  const ASKED_AGAIN := PASSED.(queue := [Rq(2)], ordcolor := false, barriers := 2, rq := DRAINING.rq,
                               h := PASSED.h.(log := PASSED.h.log + [Added(2, true)]))

  /** Request 0 is put back: the queue holds it, and nothing is in flight. */
  const AT_REST := DRAINING.(queue := [Rq(0)], driver := {}, inFlight := 0,
                             rq := DRAINING.rq.(rqs := [Plain(false, true), FIRST, SECOND]),
                             h := DRAINING.h.(log := DRAINING.h.log + [Requeued(Rq(0), 0)]))

  /** The run goes from `s` to `t`, and no mode is set on the way. */
  ghost predicate Leads(s: QState, events: seq<Event>, t: QState) {
    Run(s, events) && Steady(s, events) && After(s, events) == t
  }

  /** The event `e` takes `s` to `t`. */
  predicate Takes(s: QState, e: Event, t: QState) {
    Enabled(s, e) && SteadyEvent(s, e) && Step(s, e) == t
  }

  lemma LeadsOn(s: QState, e: Event, u: QState, events: seq<Event>, t: QState)
    requires Takes(s, e, u) && Leads(u, events, t)
    ensures Leads(s, [e] + events, t)
  {
    assert ([e] + events)[1..] == events;
  }

  lemma TakeFirst(events: seq<Event>, t: QState)
    requires Leads(TAKEN, events, t)
    ensures Leads(Init(ORDERED_TAG), [Add(PLAIN, []), Dispatching(AtTail(Rq(0))), Peeking, Starting(0)] + events, t)
  {
    hide Leads;
    var s0 := Init(ORDERED_TAG);
    var s1 := QState([], {Rq(0)}, {}, 0, false, ORDERED_TAG, ORDERED_TAG, 0, 0, 0, OneRequest(false), 0,
                     History(0, {}, 0, {}, [Added(0, false)]));
    var s2 := s1.(sched := {}, queue := [Rq(0)]);
    var s3 := s2.(rq := OneRequest(true));
    assert Step(s3, Starting(0)) == TAKEN;
    LeadsOn(s3, Starting(0), TAKEN, events, t);
    assert Step(s2, Peeking) == s3;
    LeadsOn(s2, Peeking, s3, [Starting(0)] + events, t);
    assert Step(s1, Dispatching(AtTail(Rq(0)))) == s2;
    LeadsOn(s1, Dispatching(AtTail(Rq(0))), s2, [Peeking] + ([Starting(0)] + events), t);
    assert Step(s0, Add(PLAIN, [])) == s1;
    LeadsOn(s0, Add(PLAIN, []), s1, [Dispatching(AtTail(Rq(0)))] + ([Peeking] + ([Starting(0)] + events)), t);
    assert [Add(PLAIN, []), Dispatching(AtTail(Rq(0))), Peeking, Starting(0)] + events ==
           [Add(PLAIN, [])] + ([Dispatching(AtTail(Rq(0)))] + ([Peeking] + ([Starting(0)] + events)));
  }

  lemma PassFirst(events: seq<Event>, t: QState)
    requires Leads(PASSED, events, t)
    ensures Leads(TAKEN, [Add(BARRIER, []), Peeking, Starting(0), Finishing(Bar, 0)] + events, t)
  {
    hide Leads, Enabled, SteadyEvent, Step;
    FinishFirst();
    LeadsOn(PASSING, Finishing(Bar, 0), PASSED, events, t);
    StartFirst();
    LeadsOn(BEGUN, Starting(0), PASSING, [Finishing(Bar, 0)] + events, t);
    BeginFirst();
    LeadsOn(ASKED, Peeking, BEGUN, [Starting(0)] + ([Finishing(Bar, 0)] + events), t);
    AddFirst();
    LeadsOn(TAKEN, Add(BARRIER, []), ASKED, [Peeking] + ([Starting(0)] + ([Finishing(Bar, 0)] + events)), t);
    assert [Add(BARRIER, []), Peeking, Starting(0), Finishing(Bar, 0)] + events ==
           [Add(BARRIER, [])] + ([Peeking] + ([Starting(0)] + ([Finishing(Bar, 0)] + events)));
  }

  lemma AddFirst()
    ensures Takes(TAKEN, Add(BARRIER, []), ASKED)
  {
  }

  lemma StartFirst()
    ensures Takes(BEGUN, Starting(0), PASSING)
  {
    assert BEGUN.queue[..0] + BEGUN.queue[1..] == [];
    assert BEGUN.h.log + [Handed(Bar, 1)] == PASSING.h.log;
  }

  lemma FinishFirst()
    ensures Takes(PASSING, Finishing(Bar, 0), PASSED)
  {
    var u := Release(PASSING, Bar);
    assert u.driver == {Rq(0)} && u.inFlight == 1;
    assert CurSeq(0x17) == SEQ_BAR && CurSeq(0x1f) == SEQ_DONE;
    assert CheckDrained(u) == u;
  }

  lemma BeginFirst()
    ensures Takes(ASKED, Peeking, BEGUN)
  {
    var b := BeginOrdered(ASKED);
    assert b.ordered == ORDERED_TAG && Proxies(ORDERED_TAG) == [Bar];
    assert SEQ_STARTED | Skip(ORDERED_TAG, 1) == 0x17 && CurSeq(0x17) == SEQ_BAR;
    assert b.queue == [Bar];
    assert StartOrdered(ASKED) == BEGUN.(rq := BEGUN.rq.(bar := FIRST));
  }

  lemma DrainSecond()
    ensures Leads(PASSED, [Add(EMPTY_BARRIER, []), Peeking, Requeueing(Rq(0))], AT_REST)
  {
    hide Leads, Enabled, SteadyEvent, Step;
    LeadsNowhere();
    PutBack();
    LeadsOn(DRAINING, Requeueing(Rq(0)), AT_REST, [], AT_REST);
    BeginSecond();
    LeadsOn(ASKED_AGAIN, Peeking, DRAINING, [Requeueing(Rq(0))] + [], AT_REST);
    AddSecond();
    LeadsOn(PASSED, Add(EMPTY_BARRIER, []), ASKED_AGAIN, [Peeking] + ([Requeueing(Rq(0))] + []), AT_REST);
    assert [Add(EMPTY_BARRIER, []), Peeking, Requeueing(Rq(0))] ==
           [Add(EMPTY_BARRIER, [])] + ([Peeking] + ([Requeueing(Rq(0))] + []));
  }

  lemma LeadsNowhere()
    ensures Leads(AT_REST, [], AT_REST)
  {
  }

  /** Putting the only request at the driver back into an empty queue. */
  lemma BackIntoEmpty(s: QState, x: Id)
    requires s.queue == [] && s.driver == {x} && x.Rq? && Accounted(s.rq, x)
    ensures TakeBack(s, x) == s.(queue := [x], driver := {}, inFlight := s.inFlight - 1,
                                 h := s.h.(log := s.h.log + [Requeued(x, x.n)]))
  {
    hide ReqSeq;
    assert InsertAt([], 0, x) == [x] && s.driver - {x} == {};
  }

  lemma PutBackStore()
    ensures Accounted(DRAINING.rq, Rq(0))
    ensures SetAt(DRAINING.rq, Rq(0), At(DRAINING.rq, Rq(0)).(started := false, soft := true)) == AT_REST.rq
  {
    var m := DRAINING.rq;
    assert At(m, Rq(0)) == Plain(true, false);
    assert m.rqs[0 := Plain(false, true)] == AT_REST.rq.rqs;
  }

  lemma PutBack()
    ensures Takes(DRAINING, Requeueing(Rq(0)), AT_REST)
  {
    hide TakeBack, SetAt, Accounted, Plain;
    PutBackStore();
    BackIntoEmpty(DRAINING, Rq(0));
  }

  lemma AddSecond()
    ensures Takes(PASSED, Add(EMPTY_BARRIER, []), ASKED_AGAIN)
  {
  }

  lemma BeginSecond()
    ensures Takes(ASKED_AGAIN, Peeking, DRAINING)
  {
    var b := BeginOrdered(ASKED_AGAIN);
    assert b.ordered == BY_DRAIN && Proxies(BY_DRAIN) == [];
    assert SEQ_STARTED | Skip(BY_DRAIN, 1) == 0x1d && CurSeq(0x1d) == SEQ_DRAIN;
    assert b.queue == [];
    assert StartOrdered(ASKED_AGAIN) == DRAINING;
  }

  /**
    On a tag-ordered queue the property fails: after this run nothing is in flight, the only
    request in the queue is not offered to the driver, and barrier 2 is never ended.
  */
  lemma TagQueueSticks(more: seq<Event>)
    ensures Leads(Init(ORDERED_TAG), TAG_RUN, AT_REST)
    ensures Stuck(AT_REST) && Peek(AT_REST) == AT_REST && AT_REST.driver == {} && AT_REST.sched == {}
    ensures Added(2, true) in AT_REST.h.log
    ensures Run(AT_REST, more) && Steady(AT_REST, more) ==> !EndedIn(After(AT_REST, more).h.log, 2)
  {
    hide Leads, Stuck, Peek, EndedIn;
    DrainSecond();
    PassFirst([Add(EMPTY_BARRIER, []), Peeking, Requeueing(Rq(0))], AT_REST);
    TakeFirst([Add(BARRIER, []), Peeking, Starting(0), Finishing(Bar, 0)] +
              [Add(EMPTY_BARRIER, []), Peeking, Requeueing(Rq(0))], AT_REST);
    assert TAG_RUN == [Add(PLAIN, []), Dispatching(AtTail(Rq(0))), Peeking, Starting(0)] +
                      ([Add(BARRIER, []), Peeking, Starting(0), Finishing(Bar, 0)] +
                       [Add(EMPTY_BARRIER, []), Peeking, Requeueing(Rq(0))]);
    RestIsStuck();
    RestForever(more);
  }

  lemma RestIsStuck()
    ensures Stuck(AT_REST) && Peek(AT_REST) == AT_REST && AT_REST.driver == {} && AT_REST.sched == {}
    ensures Added(2, true) in AT_REST.h.log
  {
    assert CurSeq(0x1d) == SEQ_DRAIN;
    assert DRAINING.h.log == PASSED.h.log + [Added(2, true), Began(2, BY_DRAIN)];
  }

  lemma RestForever(more: seq<Event>)
    requires Leads(Init(ORDERED_TAG), TAG_RUN, AT_REST) && Stuck(AT_REST)
    ensures Run(AT_REST, more) && Steady(AT_REST, more) ==> !EndedIn(After(AT_REST, more).h.log, 2)
  {
    hide Leads, Stuck, EndedIn, Core, Fence, Logged;
    RestIsReached();
    if Run(AT_REST, more) && Steady(AT_REST, more) { StuckForever(AT_REST, more); }
  }

  lemma RestIsReached()
    requires Leads(Init(ORDERED_TAG), TAG_RUN, AT_REST)
    ensures Core(AT_REST) && Fence(AT_REST) && Logged(AT_REST)
  {
    hide Core, Fence, Logged, AT_REST;
    InitGood(ORDERED_TAG);
    InitFence(ORDERED_TAG);
    FenceKeeps(Init(ORDERED_TAG), TAG_RUN);
  }
}
