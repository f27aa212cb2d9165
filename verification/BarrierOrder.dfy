/**
  The order that draining gives to a queue of file system requests: while every
  sequence is ordered by draining, the dispatch queue is sorted by epoch and,
  within the epoch in progress, by phase, although the code compares no more
  than one colour bit.
*/
module BarrierOrder {
  import opened NumberLists
  import opened OrderedBits
  import opened Barrier
  import opened BarrierInvariants

  /** Requests of an epoch come before the proxies of its barrier, and those before the next epoch. */
  function Key(m: Store, x: Id): (k: nat) {
    6 * At(m, x).epoch +
    match x
    case Rq(_) => if At(m, x).hard then 5 else 0
    case PreFlush => 1
    case Bar => 2
    case PostFlush => 3
  }

  ghost predicate Sorted(m: Store, queue: seq<Id>) {
    forall i, j | 0 <= i < j < |queue| :: Key(m, queue[i]) <= Key(m, queue[j])
  }

  /** A request of the epoch that is draining or running. */
  predicate Early(s: QState, x: Id) {
    x.Rq? && At(s.rq, x).epoch == s.h.ended
  }

  ghost predicate Epochs(s: QState) {
    && (forall x | x in s.queue && x.Rq? :: At(s.rq, x).epoch >= s.h.ended)
    && (forall x | x in s.driver && x.Rq? :: At(s.rq, x).epoch == s.h.ended)
    && (forall x | x in s.sched :: At(s.rq, x).epoch == s.barriers)
  }

  predicate IsDrained(s: QState) {
    s.ordseq & SEQ_DRAIN != 0
  }

  /** Only the current phase is started or handed out. */
  ghost predicate Turns(s: QState) {
    && (forall x | x in s.driver && !x.Rq? :: Phase(x) == CurSeq(s.ordseq))
    && (forall x | x in s.queue && !x.Rq? && At(s.rq, x).started :: Phase(x) == CurSeq(s.ordseq))
    && (forall x | x in s.queue && x.Rq? && At(s.rq, x).started :: Early(s, x))
    && (forall x | x in s.queue && !x.Rq? :: At(s.rq, x).soft)
  }

  /** Once the drain phase is over, nothing of its epoch is left. */
  ghost predicate Draining(s: QState) {
    s.ordseq != 0 ==>
      && s.ordered & BY_TAG == 0
      && (IsDrained(s) ==> forall x | x in s.queue || x in s.driver :: !Early(s, x))
      && (forall x | x in s.queue && Early(s, x) :: At(s.rq, x).soft)
  }

  /** As long as the drain phase lasts, there is a request whose completion can end it. */
  ghost predicate NotStuck(s: QState) {
    s.ordseq != 0 && !IsDrained(s) ==> s.inFlight > 0 || (s.queue != [] && Early(s, s.queue[0]))
  }

  ghost predicate Arranged(s: QState) {
    && DrainMode(s.nextOrdered)
    && Sorted(s.rq, s.queue)
    && Epochs(s)
    && Turns(s)
    && Draining(s)
  }

  ghost predicate Order(s: QState) {
    Arranged(s) && NotStuck(s)
  }

  // ------------------------------------------------------------- the head

  /** Whatever is at the head belongs to the next barrier to end, or is that barrier. */
  lemma HeadEpoch(s: QState)
    requires Core(s) && Sorted(s.rq, s.queue) && s.queue != [] && s.queue[0].Rq?
    ensures At(s.rq, s.queue[0]).epoch <= NextBarrier(s)
  {
    var x := s.queue[0];
    assert x in Items(s);
    assert s.rq.rqs[x.n].epoch <= s.barriers;
    if NextBarrier(s) < s.barriers {
      var i := HardsAt(s.rq.rqs, s.queue, 0);
      assert i == 0 || Key(s.rq, x) <= Key(s.rq, s.queue[i]);
    }
  }

  /** One colour bit is enough: at the head it tells this epoch from the next. */
  lemma HeadSeq(s: QState)
    requires Core(s) && Arranged(s) && s.ordseq != 0 && s.queue != [] && s.queue[0].Rq?
    ensures Early(s, s.queue[0]) <==> ReqSeq(s, s.queue[0]) == SEQ_DRAIN
  {
    HeadEpoch(s);
    var x := s.queue[0];
    assert x in Items(s);
    assert At(s.rq, Rq(s.orig)) == s.rq.rqs[s.orig];
    assert At(s.rq, x) == s.rq.rqs[x.n];
  }

  lemma KeyBound(s: QState, x: Id)
    requires Core(s) && x in Items(s)
    ensures Key(s.rq, x) <= 6 * s.barriers
    ensures IsHard(s.rq.rqs, x) || !x.Rq? ==> Key(s.rq, x) < 6 * s.barriers
  {
    if x.Rq? {
      assert At(s.rq, x) == s.rq.rqs[x.n];
    } else {
      assert At(s.rq, Rq(s.orig)) == s.rq.rqs[s.orig];
    }
  }

  lemma SortedInsert(m: Store, queue: seq<Id>, p: nat, x: Id)
    requires Sorted(m, queue) && p <= |queue|
    requires forall i | 0 <= i < p :: Key(m, queue[i]) <= Key(m, x)
    requires forall i | p <= i < |queue| :: Key(m, x) <= Key(m, queue[i])
    ensures Sorted(m, InsertAt(queue, p, x))
  {
    InsertMembers(queue, p, x);
    var q := InsertAt(queue, p, x);
    forall i, j | 0 <= i < j < |q| ensures Key(m, q[i]) <= Key(m, q[j]) {
    }
  }

  lemma SortedSame(m: Store, m': Store, queue: seq<Id>)
    requires Sorted(m, queue) && SameAttrs(m, m')
    ensures Sorted(m', queue)
  {
    assert forall x: Id :: Key(m', x) == Key(m, x);
  }

  // ------------------------------------------------------------ dispatch

  /** The barrier of a waiting epoch stands behind the requests of that epoch. */
  lemma BarrierBehind(s: QState, i: nat) returns (j: nat)
    requires Core(s) && Sorted(s.rq, s.queue) && i < |s.queue|
    requires s.queue[i].Rq? && !At(s.rq, s.queue[i]).hard
    requires NextBarrier(s) <= At(s.rq, s.queue[i]).epoch < s.barriers
    ensures i < j < |s.queue| && At(s.rq, s.queue[j]).hard
  {
    j := HardsAt(s.rq.rqs, s.queue, At(s.rq, s.queue[i]).epoch - NextBarrier(s));
    assert Key(s.rq, s.queue[j]) > Key(s.rq, s.queue[i]);
  }

  /** Behind the last stop flag there are only requests of the newest epoch. */
  lemma NewestBehind(s: QState, p: nat, i: nat)
    requires Core(s) && Order(s) && p <= i < |s.queue|
    requires forall j | p <= j < |s.queue| ::
               var a := At(s.rq, s.queue[j]); !a.soft && !a.hard && !a.started
    ensures s.queue[i].Rq? && At(s.rq, s.queue[i]).epoch == s.barriers
  {
    var x := s.queue[i];
    assert x in Items(s) && x in s.queue;
    assert At(s.rq, x) == s.rq.rqs[x.n];
    assert At(s.rq, x).epoch >= NextBarrier(s);
    if At(s.rq, x).epoch < s.barriers {
      var j := BarrierBehind(s, i);
    }
  }

  lemma DispatchSorted(s: QState, d: Dispatch)
    requires Core(s) && Order(s) && d.rq in s.sched
    ensures Sorted(s.rq, DispatchOne(s, d).queue)
  {
    var p := DispatchPos(s.rq, s.queue, d);
    forall i | 0 <= i < p ensures Key(s.rq, s.queue[i]) <= Key(s.rq, d.rq) {
      assert s.queue[i] in Items(s);
      KeyBound(s, s.queue[i]);
    }
    forall i | p <= i < |s.queue| ensures Key(s.rq, d.rq) <= Key(s.rq, s.queue[i]) {
      NewestBehind(s, p, i);
    }
    SortedInsert(s.rq, s.queue, p, d.rq);
  }

  /** A request that the scheduler gives up while a sequence is in progress was added behind its barrier. */
  lemma DispatchedNotEarly(s: QState, x: Id)
    requires Core(s) && Epochs(s) && x in s.sched && s.ordseq != 0
    ensures !Early(s, x)
  {
    assert x in Items(s);
    assert At(s.rq, x) == s.rq.rqs[x.n];
    assert At(s.rq, Rq(s.orig)) == s.rq.rqs[s.orig];
  }

  lemma DispatchDraining(s: QState, d: Dispatch)
    requires Core(s) && Order(s) && d.rq in s.sched
    ensures Draining(DispatchOne(s, d))
  {
    hide Core, DispatchPos, Sorted, Turns, Epochs, NotStuck;
    InsertMembers(s.queue, DispatchPos(s.rq, s.queue, d), d.rq);
    if s.ordseq != 0 { DispatchedNotEarly(s, d.rq); }
  }

  /** What is early in the queue is soft, so nothing is dispatched in front of it. */
  lemma DispatchNotStuck(s: QState, d: Dispatch)
    requires Draining(s) && NotStuck(s) && d.rq in s.sched
    ensures NotStuck(DispatchOne(s, d))
  {
    hide SortPos;
    var p := DispatchPos(s.rq, s.queue, d);
    InsertMembers(s.queue, p, d.rq);
    if s.queue != [] { assert s.queue[0] in s.queue; }
  }

  lemma DispatchOrder(s: QState, d: Dispatch)
    requires Core(s) && Order(s) && d.rq in s.sched
    ensures Order(DispatchOne(s, d))
  {
    DispatchSorted(s, d);
    DispatchDraining(s, d);
    DispatchNotStuck(s, d);
    InsertMembers(s.queue, DispatchPos(s.rq, s.queue, d), d.rq);
    assert d.rq in Items(s);
    assert At(s.rq, d.rq) == s.rq.rqs[d.rq.n];
  }

  lemma {:induction false} DrainOrder(s: QState, order: seq<Dispatch>)
    requires Core(s) && Order(s) && DrainsTo(s.sched, order, {})
    ensures Order(Drain(s, order))
    decreases |order|
  {
    if order != [] {
      var t := DispatchOne(s, order[0]);
      MoveCore(s, Dispatching(order[0]));
      DispatchOrder(s, order[0]);
      DrainOrder(t, order[1..]);
    }
  }

  // ------------------------------------------------------------- addition

  lemma InsertKey(s: QState, a: NewRequest, y: Id)
    requires Core(s) && y in s.queue
    ensures Key(Insert(s, a).rq, y) == Key(s.rq, y) <= Key(Insert(s, a).rq, Rq(|s.rq.rqs|))
  {
    InsertOld(s, a);
    assert y in Items(s);
    KeyBound(s, y);
  }

  lemma InsertSorted(s: QState, a: NewRequest)
    requires Core(s) && Sorted(s.rq, s.queue)
    ensures Sorted(Insert(s, a).rq, Insert(s, a).queue)
  {
    var m := Insert(s, a).rq;
    var x := Rq(|s.rq.rqs|);
    forall i | 0 <= i < |s.queue| ensures Key(m, s.queue[i]) == Key(s.rq, s.queue[i]) <= Key(m, x) {
      InsertKey(s, a, s.queue[i]);
    }
    SortedSnoc(s.rq, m, s.queue, x);
  }

  lemma SortedSnoc(m: Store, m': Store, queue: seq<Id>, x: Id)
    requires Sorted(m, queue)
    requires forall i | 0 <= i < |queue| :: Key(m', queue[i]) == Key(m, queue[i]) <= Key(m', x)
    ensures Sorted(m', queue) && Sorted(m', queue + [x])
  {
  }

  lemma InsertOld(s: QState, a: NewRequest)
    requires Core(s)
    ensures forall x | x in s.queue || x in s.sched || x in s.driver ::
              At(Insert(s, a).rq, x) == At(s.rq, x)
  {
    InsertFacts(s, a);
    assert forall x | x in s.queue || x in s.sched || x in s.driver :: x in Items(s);
    assert forall x | x in Items(s) :: x != Rq(|s.rq.rqs|);
  }

  lemma InsertEpochs(s: QState, a: NewRequest)
    requires Core(s) && Epochs(s) && (GoesBack(a) ==> s.sched == {})
    ensures Epochs(Insert(s, a))
  {
    InsertOld(s, a);
  }

  lemma InsertTurns(s: QState, a: NewRequest)
    requires Core(s) && Turns(s)
    ensures Turns(Insert(s, a))
  {
    InsertOld(s, a);
  }

  lemma InsertDraining(s: QState, a: NewRequest)
    requires Core(s) && Draining(s) && NotStuck(s)
    ensures Draining(Insert(s, a)) && NotStuck(Insert(s, a))
  {
    InsertOld(s, a);
    if s.ordseq != 0 {
      assert At(s.rq, Rq(s.orig)) == s.rq.rqs[s.orig];
      assert !Early(Insert(s, a), Rq(|s.rq.rqs|));
    }
  }

  lemma InsertOrder(s: QState, a: NewRequest)
    requires Core(s) && Order(s) && (GoesBack(a) ==> s.sched == {})
    ensures Order(Insert(s, a))
  {
    InsertSorted(s, a);
    InsertEpochs(s, a);
    InsertTurns(s, a);
    InsertDraining(s, a);
  }

  lemma AddOrder(s: QState, a: NewRequest, order: seq<Dispatch>)
    requires Core(s) && Order(s) && Enabled(s, Add(a, order))
    ensures Order(AddRequest(s, a, order))
  {
    if GoesBack(a) {
      DrainCore(s, order, {});
      DrainOrder(s, order);
    }
    InsertOrder(if GoesBack(a) then Drain(s, order) else s, a);
  }

  // -------------------------------------------------------------- driver

  lemma SortedRemove(m: Store, queue: seq<Id>, p: nat)
    requires Sorted(m, queue) && p < |queue|
    ensures Sorted(m, queue[..p] + queue[p + 1..])
  {
    var q := queue[..p] + queue[p + 1..];
    assert forall i | 0 <= i < |q| :: q[i] == if i < p then queue[i] else queue[i + 1];
  }

  lemma StartDraining(s: QState, p: nat)
    requires Core(s) && Order(s) && p < |s.queue| && At(s.rq, s.queue[p]).started
    ensures Draining(Start(s, p)) && NotStuck(Start(s, p))
  {
    RemoveMembers(s.queue, p);
    if s.ordseq != 0 {
      CurCases(s.ordseq);
    }
  }

  lemma StartOrder(s: QState, p: nat)
    requires Core(s) && Order(s) && p < |s.queue| && At(s.rq, s.queue[p]).started
    ensures Order(Start(s, p))
  {
    RemoveMembers(s.queue, p);
    SortedRemove(s.rq, s.queue, p);
    StartDraining(s, p);
  }

  /** The colour of a request of the next epoch differs from that of the barrier in progress. */
  lemma NextEpochSeq(s: QState, y: Id)
    requires Core(s) && s.ordseq != 0 && y.Rq? && y.n < |s.rq.rqs|
    requires At(s.rq, y).epoch == s.h.ended + 1
    ensures ReqSeq(s, y) == SEQ_DONE
  {
    assert At(s.rq, Rq(s.orig)) == s.rq.rqs[s.orig];
    assert At(s.rq, y) == s.rq.rqs[y.n];
  }

  /** Ordered requeue puts every request back at the head: nothing of an earlier phase is left. */
  lemma RequeueAtHead(s: QState, x: Id)
    requires Core(s) && Order(s) && x in s.driver && s.ordseq != 0
    ensures RequeuePos(s, s.queue, x) == 0
  {
    assert x in Items(s);
    CurCases(s.ordseq);
    if x.Rq? {
      assert At(s.rq, Rq(s.orig)) == s.rq.rqs[s.orig];
      assert At(s.rq, x) == s.rq.rqs[x.n];
      assert ReqSeq(s, x) == SEQ_DRAIN;
    } else if s.queue != [] {
      var y := s.queue[0];
      assert y in Items(s) && y in s.queue;
      if y.Rq? {
        HeadEpoch(s);
        NextEpochSeq(s, y);
      } else {
        assert y in Outstanding(s);
      }
    }
  }

  lemma RequeueKey(s: QState, x: Id, y: Id)
    requires Core(s) && Order(s) && x in s.driver && y in s.queue
    ensures Key(s.rq, x) <= Key(s.rq, y)
  {
    assert x in Items(s) && y in Items(s);
    if s.ordseq != 0 {
      CurCases(s.ordseq);
      assert y.Rq? || y in Outstanding(s);
    }
  }

  lemma RequeueSorted(s: QState, x: Id)
    requires Core(s) && Order(s) && x in s.driver
    ensures TakeBack(s, x).queue == [x] + s.queue
    ensures Sorted(s.rq, [x] + s.queue)
  {
    hide Core, Key, Epochs, Turns, Draining, NotStuck;
    if s.ordseq != 0 { RequeueAtHead(s, x); }
    forall i | 0 <= i < |s.queue| ensures Key(s.rq, x) <= Key(s.rq, s.queue[i]) {
      RequeueKey(s, x, s.queue[i]);
    }
    SortedInsert(s.rq, s.queue, 0, x);
    assert InsertAt(s.queue, 0, x) == [x] + s.queue;
  }

  lemma RequeueFacts(s: QState, x: Id)
    requires Core(s) && Order(s) && x in s.driver
    ensures var t := Requeue(s, x);
            && Sorted(t.rq, t.queue) && SameAttrs(s.rq, t.rq)
            && (forall y :: y in t.queue <==> y in s.queue || y == x)
            && t.queue == [x] + s.queue
            && (forall y: Id | y != x :: At(t.rq, y) == At(s.rq, y))
            && At(t.rq, x).soft && !At(t.rq, x).started
  {
    assert x in Items(s);
    var t := Requeue(s, x);
    RequeueSorted(s, x);
    FlagsAttrs(s.rq, x, At(s.rq, x).(started := false, soft := true));
    SortedSame(s.rq, t.rq, t.queue);
    InsertMembers(s.queue, if s.ordseq == 0 then 0 else RequeuePos(s, s.queue, x), x);
  }

  lemma RequeueFrame(s: QState, x: Id)
    ensures var t := Requeue(s, x);
            t.ordseq == s.ordseq && t.ordered == s.ordered && t.h.ended == s.h.ended && t.driver == s.driver - {x}
  {
  }

  lemma RequeueDraining(s: QState, x: Id)
    requires Core(s) && Order(s) && x in s.driver
    ensures Draining(Requeue(s, x)) && NotStuck(Requeue(s, x))
  {
    hide Hards, Sorted, Requeue;
    RequeueFacts(s, x);
    RequeueFrame(s, x);
    var t := Requeue(s, x);
    assert x in Items(s);
    if s.ordseq != 0 {
      CurCases(s.ordseq);
      assert forall y | y in s.queue || y in s.driver :: Early(t, y) == Early(s, y);
      assert !IsDrained(s) ==> x.Rq?;
    }
  }

  lemma RequeueOrder(s: QState, x: Id)
    requires Core(s) && Order(s) && x in s.driver
    ensures Order(Requeue(s, x))
  {
    RequeueFacts(s, x);
    RequeueDraining(s, x);
    assert x in Items(s);
  }

  // ---------------------------------------------------------- completion

  /** A drain that has ended: nothing of the epoch is left, and no proxy was out before its turn. */
  lemma NothingEarly(s: QState)
    requires Core(s) && Arranged(s) && Drained(s)
    ensures forall x | x in s.queue || x in s.driver :: !Early(s, x)
    ensures s.driver == {}
  {
    CurCases(s.ordseq);
    assert Acc(s.driver) == {};
    forall x | x in s.driver ensures x in Acc(s.driver) {
      assert x in Items(s);
    }
    if s.queue != [] {
      assert s.queue[0] in Items(s);
      if s.queue[0].Rq? { HeadSeq(s); }
      forall x | x in s.queue ensures !Early(s, x) {
        var i :| 0 <= i < |s.queue| && s.queue[i] == x;
        assert Key(s.rq, s.queue[0]) <= Key(s.rq, x);
      }
    }
  }

  lemma ReleaseArranged(s: QState, x: Id)
    requires Core(s) && Order(s) && x in s.driver && x.Rq?
    ensures Core(Release(s, x)) && Arranged(Release(s, x))
  {
    ReleasedPlaces(s, x);
    ReleasedRq(s, x);
  }

  /** The end of the drain phase, or of a whole sequence that has nothing to flush or write. */
  lemma EndDrain(s: QState)
    requires Core(s) && Arranged(s) && Drained(s)
    ensures Order(CompleteSeq(s, SEQ_DRAIN, 0))
  {
    NothingEarly(s);
    var t := CompleteSeq(s, SEQ_DRAIN, 0);
    OrBits(s.ordseq, SEQ_DRAIN);
    CurCases(s.ordseq);
    forall x | x in s.queue ensures !At(s.rq, x).started {
      assert x in Items(s);
    }
    if t.ordseq == 0 {
      EndEpochs(s, t);
    }
  }

  lemma EndEpochs(s: QState, t: QState)
    requires Epochs(s) && forall x | x in s.queue || x in s.driver :: !Early(s, x)
    requires t.queue == s.queue && t.driver == s.driver && t.sched == s.sched && t.rq == s.rq
    requires t.h.ended == s.h.ended + 1 && t.barriers == s.barriers
    ensures Epochs(t)
  {
  }

  lemma FinishRqOrder(s: QState, x: Id, error: int)
    requires Core(s) && Order(s) && x in s.driver && x.Rq?
    ensures Order(Finish(s, x, error))
  {
    var t := Release(s, x);
    ReleaseArranged(s, x);
    if Drained(t) {
      EndDrain(t);
    } else if t.ordseq != 0 && !IsDrained(t) && t.inFlight == 0 {
      CurCases(t.ordseq);
      assert t.queue[0] in Items(t);
      if t.queue[0].Rq? { HeadSeq(t); }
    } else {
      assert t.inFlight == |Acc(t.driver)|;
    }
  }

  /** In a drain-ordered sequence a proxy completes as the only one handed out. */
  lemma FinishProxyAlone(s: QState, x: Id)
    requires Core(s) && Order(s) && x in s.driver && !x.Rq?
    ensures Phase(x) == CurSeq(s.ordseq) && IsDrained(s)
    ensures forall y | y in s.driver :: y == x
    ensures forall y | y in s.queue :: !At(s.rq, y).started && !Early(s, y)
  {
    assert x in Items(s);
    CurCases(s.ordseq);
    forall y | y in s.driver ensures y == x {
      assert y.Rq? ==> Early(s, y);
    }
    forall y | y in s.queue ensures !At(s.rq, y).started {
      assert !Early(s, y) && y != x;
    }
  }

  /** With nothing handed out, nothing started and nothing early, the order depends on little else. */
  lemma QuietOrder(s: QState, t: QState)
    requires Arranged(s) && s.ordseq != 0
    requires t == s.(ordseq := t.ordseq, orderr := t.orderr, h := t.h, driver := {}, inFlight := t.inFlight)
    requires forall y | y in s.queue :: !At(s.rq, y).started && !Early(s, y)
    requires if t.ordseq == 0 then t.h.ended == s.h.ended + 1 else t.h.ended == s.h.ended && IsDrained(t)
    ensures Order(t)
  {
  }

  /** The drain phase is over when a proxy completes, so its check changes nothing. */
  lemma FinishProxyIs(s: QState, x: Id, error: int)
    requires Core(s) && Order(s) && x in s.driver && !x.Rq?
    ensures Finish(s, x, error) == CompleteSeq(Release(s, x), Phase(x), error)
    ensures IsDrained(s) && s.ordseq != 0
  {
    assert x in Items(s);
    CurCases(s.ordseq);
  }

  lemma FinishProxyOrder(s: QState, x: Id, error: int)
    requires Core(s) && Order(s) && x in s.driver && !x.Rq?
    ensures Order(Finish(s, x, error))
  {
    FinishProxyIs(s, x, error);
    FinishProxyAlone(s, x);
    var u := CompleteSeq(Release(s, x), Phase(x), error);
    assert u.driver == {};
    assert u.ordseq != 0 ==> IsDrained(u) by { OrBits(s.ordseq, Phase(x)); }
    QuietOrder(s, u);
  }

  // ------------------------------------------------------------- peeking

  /** What blk_do_ordered serves without starting a sequence is what the order calls for. */
  lemma ServedInTurn(s: QState)
    requires Core(s) && Order(s) && s.queue != []
    requires s.ordseq == 0 ==> !IsHard(s.rq.rqs, s.queue[0])
    requires s.ordseq != 0 ==> ReqSeq(s, s.queue[0]) <= CurSeq(s.ordseq)
    ensures s.queue[0].Rq? ==> Early(s, s.queue[0])
    ensures !s.queue[0].Rq? ==> Phase(s.queue[0]) == CurSeq(s.ordseq)
  {
    var x := s.queue[0];
    assert x in Items(s) && x in s.queue;
    if s.ordseq == 0 {
      HeadEpoch(s);
    } else {
      CurCases(s.ordseq);
      if x.Rq? { HeadSeq(s); } else { assert x in Outstanding(s); }
    }
  }

  lemma MarkOrder(s: QState, x: Id)
    requires Core(s) && Order(s) && x in s.queue
    requires x.Rq? ==> Early(s, x)
    requires !x.Rq? ==> Phase(x) == CurSeq(s.ordseq)
    ensures Order(MarkStarted(s, x))
  {
    hide Book, Sorted;
    var t := MarkStarted(s, x);
    FlagsAttrs(s.rq, x, At(s.rq, x).(started := true));
    SortedSame(s.rq, t.rq, t.queue);
    assert forall y: Id | y != x :: At(t.rq, y) == At(s.rq, y);
  }

  lemma SortedConcat(m: Store, p: seq<Id>, q: seq<Id>, bound: nat)
    requires Sorted(m, p) && Sorted(m, q)
    requires forall x | x in p :: Key(m, x) <= bound
    requires forall x | x in q :: bound <= Key(m, x)
    ensures Sorted(m, p + q)
  {
    forall i, j | 0 <= i < j < |p + q| ensures Key(m, (p + q)[i]) <= Key(m, (p + q)[j]) {
      if i < |p| <= j {
        assert (p + q)[i] in p && (p + q)[j] in q;
      }
    }
  }

  lemma ProxiesSorted(m: Store, mode: bv8, e: nat)
    requires forall x | x in Proxies(mode) :: At(m, x).epoch == e
    ensures Sorted(m, Proxies(mode))
    ensures forall x | x in Proxies(mode) :: Key(m, x) <= 6 * e + 6
  {
    ProxiesFacts([], mode, []);
  }

  lemma TailFacts(s: QState)
    requires Core(s) && Sorted(s.rq, s.queue) && AtHead(s)
    ensures forall x | x in s.queue[1..] ::
              x.Rq? && At(s.rq, x).epoch > s.h.ended && Key(s.rq, x) >= 6 * s.h.ended + 6
    ensures Sorted(s.rq, s.queue[1..])
  {
    forall x | x in s.queue[1..]
      ensures x.Rq? && At(s.rq, x).epoch > s.h.ended && Key(s.rq, x) >= 6 * s.h.ended + 6
    {
      var i :| 0 <= i < |s.queue[1..]| && s.queue[1..][i] == x;
      TailBehind(s, i + 1);
    }
  }

  /** Setting up the proxies leaves the file system requests alone. */
  lemma SortedRqs(m: Store, m': Store, queue: seq<Id>)
    requires Sorted(m, queue) && m'.rqs == m.rqs && forall x | x in queue :: x.Rq?
    ensures Sorted(m', queue)
    ensures forall x | x in queue :: Key(m', x) == Key(m, x)
  {
    assert forall i | 0 <= i < |queue| :: queue[i] in queue;
  }

  lemma BeginEpochs(s: QState)
    requires Core(s) && AtHead(s)
    ensures var t := BeginOrdered(s);
            forall x | x in Proxies(t.h.begun) :: At(t.rq, x).epoch == s.h.ended
  {
    hide Core, Hards, Members, Items;
    HeadFacts(s);
    ProxiesFacts([], BeginOrdered(s).h.begun, []);
  }

  lemma BeginSorted(s: QState)
    requires Core(s) && Arranged(s) && AtHead(s)
    ensures Sorted(BeginOrdered(s).rq, BeginOrdered(s).queue)
  {
    HeadFacts(s);
    TailFacts(s);
    var t := BeginOrdered(s);
    SortedRqs(s.rq, t.rq, s.queue[1..]);
    BeginEpochs(s);
    ProxiesSorted(t.rq, t.h.begun, s.h.ended);
    SortedConcat(t.rq, Proxies(t.h.begun), s.queue[1..], 6 * s.h.ended + 6);
  }

  /** Behind a hard barrier there are only later epochs. */
  lemma TailBehind(s: QState, i: nat)
    requires Core(s) && Sorted(s.rq, s.queue) && AtHead(s) && 0 < i < |s.queue|
    ensures s.queue[i].Rq? && At(s.rq, s.queue[i]).epoch > s.h.ended
  {
    HeadFacts(s);
    assert s.queue[i] in Items(s) && s.queue[0] in Items(s);
    assert Key(s.rq, s.queue[0]) <= Key(s.rq, s.queue[i]);
    assert s.queue[i].n != s.queue[0].n;
    assert At(s.rq, s.queue[i]) == s.rq.rqs[s.queue[i].n];
  }

  lemma BeginDrained(s: QState)
    requires Core(s) && Arranged(s) && AtHead(s)
    ensures var t := StartOrdered(s);
            && t.queue == Proxies(BeginOrdered(s).h.begun) + s.queue[1..] && t.driver == s.driver
            && (t.ordseq != 0 ==> (IsDrained(t) <==> s.inFlight == 0))
            && (t.ordseq == 0 ==> s.inFlight == 0 && Proxies(BeginOrdered(s).h.begun) == [])
  {
    BeginPlaces(s);
    var b := BeginOrdered(s);
    SkipBits(b.ordered, b.inFlight);
    CurCases(SEQ_STARTED | Skip(b.ordered, b.inFlight));
  }

  lemma BeginQueueFacts(s: QState, x: Id)
    requires Core(s) && Arranged(s) && AtHead(s) && x in BeginOrdered(s).queue
    ensures var t := BeginOrdered(s);
            && (x.Rq? ==> At(t.rq, x) == At(s.rq, x) && At(s.rq, x).epoch > s.h.ended && !At(s.rq, x).started)
            && (!x.Rq? ==> At(t.rq, x).soft && !At(t.rq, x).started)
  {
    var t := BeginOrdered(s);
    if x in s.queue[1..] {
      TailFacts(s);
      HeadFacts(s);
      assert x in s.queue;
    } else {
      assert x in Proxies(t.h.begun);
      ProxiesFacts([], t.h.begun, []);
    }
  }

  lemma BeginPlacesFacts(s: QState)
    requires Core(s) && Arranged(s) && AtHead(s)
    ensures var t := StartOrdered(s);
            && (forall x | x in t.queue && x.Rq? ::
                  At(t.rq, x) == At(s.rq, x) && At(t.rq, x).epoch > s.h.ended && !At(t.rq, x).started)
            && (forall x | x in t.queue && !x.Rq? :: At(t.rq, x).soft && !At(t.rq, x).started)
            && (forall x | x in t.driver || x in t.sched :: x.Rq? && At(t.rq, x) == At(s.rq, x))
  {
    HeadFacts(s);
    forall x | x in BeginOrdered(s).queue {
      BeginQueueFacts(s, x);
    }
  }

  lemma StartOrderedOrder(s: QState)
    requires Core(s) && Order(s) && AtHead(s)
    ensures Order(StartOrdered(s))
  {
    var t := StartOrdered(s);
    HeadFacts(s);
    BeginSorted(s);
    BeginDrained(s);
    BeginPlacesFacts(s);
    if s.inFlight == 0 {
      assert Acc(s.driver) == {};
      forall x | x in s.driver ensures x in Acc(s.driver) {
        assert x in Items(s);
      }
    } else {
      assert s.inFlight > 0;
    }
  }

  lemma PeekOrder(s: QState)
    requires Core(s) && Order(s) && s.queue != []
    ensures Order(Peek(s))
  {
    var (t, v) := DoOrdered(s);
    assert s.queue[0] in Items(s);
    if AtHead(s) {
      StartOrderedCore(s);
      StartOrderedOrder(s);
      if v == Serve {
        StartServes(s);
        MarkOrder(t, t.queue[0]);
      }
    } else if v == Serve {
      ServedInTurn(s);
      MarkOrder(s, s.queue[0]);
    }
  }

  /** start_ordered serves the first proxy, whose turn it is. */
  lemma StartServes(s: QState)
    requires Core(s) && Order(s) && AtHead(s) && StartVerdict(s) == Serve
    ensures var t := StartOrdered(s);
            t.queue != [] && !t.queue[0].Rq? && Phase(t.queue[0]) == CurSeq(t.ordseq)
  {
    BeginPlaces(s);
    var b := BeginOrdered(s);
    SkipBits(b.ordered, b.inFlight);
    CurCases(SEQ_STARTED | Skip(b.ordered, b.inFlight));
    ProxiesFacts([], b.h.begun, []);
    assert b.ordered & BY_DRAIN != 0 ==> b.inFlight == 0;
  }

  // ---------------------------------------------------------------- runs

  /** A run of a drain-ordered queue: whatever is set, it is a drain mode. */
  predicate DrainEvent(e: Event) {
    e.SetOrdered? ==> DrainMode(e.mode)
  }

  lemma OtherOrder(s: QState, e: Event)
    requires Core(s) && Order(s) && Enabled(s, e) && DrainEvent(e) && (e.BarPart? || e.SetOrdered?)
    ensures Order(Step(s, e))
  {
  }

  lemma StepOrder(s: QState, e: Event)
    requires Core(s) && Order(s) && Enabled(s, e) && DrainEvent(e)
    ensures Order(Step(s, e))
  {
    match e {
      case Add(a, order) => AddOrder(s, a, order);
      case Dispatching(d) => DispatchOrder(s, d);
      case Peeking => PeekOrder(s);
      case Starting(p) => StartOrder(s, p);
      case Requeueing(x) => RequeueOrder(s, x);
      case Finishing(x, error) =>
        if x.Rq? { FinishRqOrder(s, x, error); } else { FinishProxyOrder(s, x, error); }
      case BarPart(_) => OtherOrder(s, e);
      case SetOrdered(_) => OtherOrder(s, e);
    }
  }
}
