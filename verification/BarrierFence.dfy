/**
  What holds of the dispatch queue in every mode, also when requests may pass a barrier: a hard
  barrier in the queue fences off what was added after it, and a sequence that drains has
  something left to end the drain.
*/
module BarrierFence {
  import opened NumberLists
  import opened OrderedBits
  import opened Barrier
  import opened BarrierInvariants
  import opened BarrierOrder

  predicate ByTag(mode: bv8) {
    mode & BY_TAG != 0
  }

  // ----------------------------------------------------------- the fence

  /** What may stand behind, and what in front of, a hard barrier. */
  predicate Apart(m: Store, x: Id, y: Id) {
    && (IsHard(m.rqs, x) ==> y.Rq? && At(m, x).epoch < At(m, y).epoch && !At(m, y).started)
    && (IsHard(m.rqs, y) && x.Rq? ==> At(m, x).epoch <= At(m, y).epoch)
  }

  ghost predicate Fenced(m: Store, queue: seq<Id>) {
    forall i, j | 0 <= i < j < |queue| :: Apart(m, queue[i], queue[j])
  }

  predicate Before(s: QState, x: Id, y: Id) {
    !y.Rq? ==> ReqSeq(s, x) < Phase(y)
  }

  /** The proxies of a sequence in progress wait behind earlier phases only. */
  ghost predicate Phased(s: QState) {
    forall i, j | 0 <= i < j < |s.queue| :: Before(s, s.queue[i], s.queue[j])
  }

  /** As long as a drain is in progress and the driver holds nothing, the head of the queue is no barrier. */
  ghost predicate Unfinished(s: QState) {
    !IsDrained(s) && s.driver == {} ==> s.queue != [] && !IsHard(s.rq.rqs, s.queue[0])
  }

  ghost predicate InStep(s: QState) {
    s.ordseq != 0 ==> Phased(s) && Unfinished(s)
  }

  ghost predicate Passed(s: QState) {
    && (forall x | x in s.driver && x.Rq? :: At(s.rq, x).epoch <= NextBarrier(s))
    && (forall x | x in s.sched :: At(s.rq, x).epoch == s.barriers)
    && (forall x | x in s.queue && !x.Rq? :: At(s.rq, x).soft)
  }

  ghost predicate Fence(s: QState) {
    Fenced(s.rq, s.queue) && Passed(s) && InStep(s)
  }

  lemma FencedInsert(m: Store, queue: seq<Id>, p: nat, x: Id)
    requires Fenced(m, queue) && p <= |queue|
    requires forall i | 0 <= i < p :: Apart(m, queue[i], x)
    requires forall i | p <= i < |queue| :: Apart(m, x, queue[i])
    ensures Fenced(m, InsertAt(queue, p, x))
  {
    hide Apart;
    InsertMembers(queue, p, x);
    var q := InsertAt(queue, p, x);
    forall i, j | 0 <= i < j < |q| ensures Apart(m, q[i], q[j]) {
    }
  }

  lemma FencedRemove(m: Store, queue: seq<Id>, p: nat)
    requires Fenced(m, queue) && p < |queue|
    ensures Fenced(m, queue[..p] + queue[p + 1..])
  {
    hide Apart;
    var q := queue[..p] + queue[p + 1..];
    assert forall i | 0 <= i < |q| :: q[i] == if i < p then queue[i] else queue[i + 1];
  }

  /** Flags of other requests do not matter, and started may only be set on the head. */
  lemma FencedSame(m: Store, m': Store, queue: seq<Id>)
    requires Fenced(m, queue) && SameAttrs(m, m')
    requires forall i | 0 < i < |queue| :: At(m', queue[i]).started ==> At(m, queue[i]).started
    ensures Fenced(m', queue)
  {
    AttrsAt(m, m');
    forall i, j | 0 <= i < j < |queue| ensures Apart(m', queue[i], queue[j]) {
      assert Apart(m, queue[i], queue[j]);
      assert forall x: Id :: IsHard(m'.rqs, x) == IsHard(m.rqs, x);
    }
  }

  lemma PhasedInsert(s: QState, t: QState, p: nat, x: Id)
    requires Phased(s) && p <= |s.queue| && t.queue == InsertAt(s.queue, p, x)
    requires forall y, z :: Before(t, y, z) == Before(s, y, z)
    requires forall i | 0 <= i < p :: Before(s, s.queue[i], x)
    requires forall i | p <= i < |s.queue| :: Before(s, x, s.queue[i])
    ensures Phased(t)
  {
    hide Before;
    InsertMembers(s.queue, p, x);
    forall i, j | 0 <= i < j < |t.queue| ensures Before(t, t.queue[i], t.queue[j]) {
    }
  }

  lemma SameSeqs(s: QState, t: QState)
    requires t.orig == s.orig && SameAttrs(s.rq, t.rq)
    ensures forall y: Id :: ReqSeq(t, y) == ReqSeq(s, y)
    ensures forall y, z :: Before(t, y, z) == Before(s, y, z)
  {
  }

  // ------------------------------------------------------------ dispatch

  lemma RqEpoch(s: QState, x: Id)
    requires Core(s) && x in Items(s) && x.Rq?
    ensures x.n < |s.rq.rqs| && At(s.rq, x).epoch <= s.barriers
    ensures IsHard(s.rq.rqs, x) ==> At(s.rq, x).epoch < s.barriers
    ensures IsHard(s.rq.rqs, x) == At(s.rq, x).hard
  {
    assert At(s.rq, x) == s.rq.rqs[x.n];
  }

  /** A dispatched request is of the newest epoch and goes behind every barrier. */
  lemma DispatchApart(s: QState, d: Dispatch, i: nat)
    requires Core(s) && Passed(s) && d.rq in s.sched && i < |s.queue|
    ensures if i < DispatchPos(s.rq, s.queue, d) then Apart(s.rq, s.queue[i], d.rq)
            else Apart(s.rq, d.rq, s.queue[i])
  {
    assert d.rq in Items(s) && s.queue[i] in Items(s);
    RqEpoch(s, d.rq);
    if s.queue[i].Rq? { RqEpoch(s, s.queue[i]); }
  }

  lemma DispatchFenced(s: QState, d: Dispatch)
    requires Core(s) && Fence(s) && d.rq in s.sched
    ensures Fenced(s.rq, DispatchOne(s, d).queue)
  {
    hide Core, Apart, Fenced, InStep, SortPos, Passed;
    forall i: nat | i < |s.queue|
      ensures if i < DispatchPos(s.rq, s.queue, d) then Apart(s.rq, s.queue[i], d.rq)
              else Apart(s.rq, d.rq, s.queue[i])
    {
      DispatchApart(s, d, i);
    }
    FencedInsert(s.rq, s.queue, DispatchPos(s.rq, s.queue, d), d.rq);
  }

  lemma DispatchPhased(s: QState, d: Dispatch)
    requires Passed(s) && d.rq in s.sched && d.rq.Rq? && Phased(s)
    ensures Phased(DispatchOne(s, d))
  {
    var p := DispatchPos(s.rq, s.queue, d);
    assert forall i | p <= i < |s.queue| :: s.queue[i] in s.queue && s.queue[i].Rq?;
    SameSeqs(s, DispatchOne(s, d));
    PhasedInsert(s, DispatchOne(s, d), p, d.rq);
  }

  lemma DispatchFence(s: QState, d: Dispatch)
    requires Core(s) && Fence(s) && d.rq in s.sched
    ensures Fence(DispatchOne(s, d))
  {
    hide Fenced, Phased, Book;
    DispatchFenced(s, d);
    InsertMembers(s.queue, DispatchPos(s.rq, s.queue, d), d.rq);
    if s.ordseq != 0 { DispatchPhased(s, d); }
  }

  lemma {:induction false} DrainFence(s: QState, order: seq<Dispatch>)
    requires Core(s) && Fence(s) && DrainsTo(s.sched, order, {})
    ensures Fence(Drain(s, order))
    decreases |order|
  {
    if order != [] {
      MoveCore(s, Dispatching(order[0]));
      DispatchFence(s, order[0]);
      DrainFence(DispatchOne(s, order[0]), order[1..]);
    }
  }

  // ------------------------------------------------------------- addition

  lemma InsertFenced(s: QState, a: NewRequest)
    requires Core(s) && Fenced(s.rq, s.queue)
    ensures Fenced(Insert(s, a).rq, Insert(s, a).queue)
  {
    hide Hards, Bits;
    var t := Insert(s, a);
    var x := Rq(|s.rq.rqs|);
    InsertOld(s, a);
    forall i | 0 <= i < |s.queue| ensures Apart(t.rq, s.queue[i], x) {
      assert s.queue[i] in Items(s);
      if s.queue[i].Rq? { RqEpoch(s, s.queue[i]); }
    }
    forall i, j | 0 <= i < j < |s.queue| ensures Apart(t.rq, s.queue[i], s.queue[j]) {
      assert Apart(s.rq, s.queue[i], s.queue[j]);
      assert s.queue[i] in Items(s) && s.queue[j] in Items(s);
    }
  }

  lemma InsertSeqs(s: QState, a: NewRequest, x: Id)
    requires Core(s) && s.ordseq != 0 && x in s.queue
    ensures ReqSeq(Insert(s, a), x) == ReqSeq(s, x)
  {
    hide Waiting, Hards, Places;
    InsertFacts(s, a);
    assert x in Items(s);
  }

  lemma InsertPhased(s: QState, a: NewRequest)
    requires Core(s) && s.ordseq != 0 && Phased(s)
    ensures Phased(Insert(s, a))
  {
    hide Core, ReqSeq;
    var t := Insert(s, a);
    forall i, j | 0 <= i < j < |t.queue| ensures Before(t, t.queue[i], t.queue[j]) {
      InsertSeqs(s, a, s.queue[i]);
      assert j < |s.queue| ==> Before(s, s.queue[i], s.queue[j]);
    }
  }

  lemma InsertInStep(s: QState, a: NewRequest)
    requires Core(s) && InStep(s)
    ensures InStep(Insert(s, a))
  {
    hide Book, Places, Phased;
    BookBounds(s);
    if s.ordseq != 0 { InsertPhased(s, a); }
  }

  lemma InsertFence(s: QState, a: NewRequest)
    requires Core(s) && Fence(s) && (GoesBack(a) ==> s.sched == {})
    ensures Fence(Insert(s, a))
  {
    hide Core, Fenced, InStep;
    InsertFenced(s, a);
    InsertInStep(s, a);
    InsertOld(s, a);
  }

  lemma AddFence(s: QState, a: NewRequest, order: seq<Dispatch>)
    requires Core(s) && Fence(s) && Enabled(s, Add(a, order))
    ensures Fence(AddRequest(s, a, order))
  {
    hide Fence, Core;
    if GoesBack(a) {
      DrainCore(s, order, {});
      DrainFence(s, order);
    }
    InsertFence(if GoesBack(a) then Drain(s, order) else s, a);
  }

  // -------------------------------------------------------------- driver

  lemma {:induction false} HardsHas(rqs: seq<Attr>, queue: seq<Id>, i: nat)
    requires i < |queue| && IsHard(rqs, queue[i])
    ensures rqs[queue[i].n].epoch in Hards(rqs, queue)
  {
    if i > 0 { HardsHas(rqs, queue[1..], i - 1); }
  }

  /** The barriers that wait in the queue belong to the next barrier's epoch or to later ones. */
  lemma HardEpoch(s: QState, i: nat)
    requires Core(s) && i < |s.queue| && IsHard(s.rq.rqs, s.queue[i])
    ensures NextBarrier(s) <= At(s.rq, s.queue[i]).epoch
  {
    HardsHas(s.rq.rqs, s.queue, i);
  }

  ghost predicate NoHards(s: QState, p: nat)
    requires p <= |s.queue|
  {
    forall i | 0 <= i < p :: !IsHard(s.rq.rqs, s.queue[i])
  }

  /** What no barrier fences off belongs to the epoch of the next barrier at the latest. */
  lemma FrontEpoch(s: QState, p: nat)
    requires Core(s) && Fenced(s.rq, s.queue) && p < |s.queue| && s.queue[p].Rq? && NoHards(s, p)
    ensures At(s.rq, s.queue[p]).epoch <= NextBarrier(s)
  {
    assert s.queue[p] in Items(s);
    RqEpoch(s, s.queue[p]);
    if NextBarrier(s) < s.barriers {
      var i := HardsAt(s.rq.rqs, s.queue, 0);
      assert i == p || Apart(s.rq, s.queue[p], s.queue[i]);
    }
  }

  lemma StartedFront(s: QState, p: nat)
    requires Fenced(s.rq, s.queue) && p < |s.queue| && At(s.rq, s.queue[p]).started
    ensures NoHards(s, p)
  {
    assert forall i | 0 <= i < p :: Apart(s.rq, s.queue[i], s.queue[p]);
  }

  lemma StartInStep(s: QState, p: nat)
    requires Core(s) && InStep(s) && p < |s.queue| && At(s.rq, s.queue[p]).started
    ensures InStep(Start(s, p))
  {
    hide Book;
    RemoveMembers(s.queue, p);
  }

  lemma StartFence(s: QState, p: nat)
    requires Core(s) && Fence(s) && p < |s.queue| && At(s.rq, s.queue[p]).started
    ensures Fence(Start(s, p))
  {
    hide InStep, Fenced, Book;
    FencedRemove(s.rq, s.queue, p);
    RemoveMembers(s.queue, p);
    StartInStep(s, p);
    StartedFront(s, p);
    if s.queue[p].Rq? { FrontEpoch(s, p); }
  }

  /** The position of a requeued request: never behind a hard barrier. */
  function BackPos(s: QState, x: Id): (p: nat)
    ensures p <= |s.queue|
  {
    if s.ordseq == 0 then 0 else RequeuePos(s, s.queue, x)
  }

  /** The hard barriers next in the queue have the other colour than the one in progress. */
  lemma NextHardSeq(s: QState) returns (i: nat)
    requires Core(s) && s.ordseq != 0 && NextBarrier(s) < s.barriers
    ensures i < |s.queue| && IsHard(s.rq.rqs, s.queue[i]) && ReqSeq(s, s.queue[i]) == SEQ_DONE
    ensures At(s.rq, s.queue[i]).epoch == NextBarrier(s)
  {
    i := HardsAt(s.rq.rqs, s.queue, 0);
    NextEpochSeq(s, s.queue[i]);
  }

  lemma BackFront(s: QState, x: Id)
    requires Core(s) && Fenced(s.rq, s.queue)
    ensures NoHards(s, BackPos(s, x))
  {
    if s.ordseq != 0 && NextBarrier(s) < s.barriers {
      var j := NextHardSeq(s);
      SeqBound(s, x);
      assert j >= BackPos(s, x);
      forall i: nat | i < BackPos(s, x) ensures !IsHard(s.rq.rqs, s.queue[i]) {
        assert Apart(s.rq, s.queue[i], s.queue[j]);
        if IsHard(s.rq.rqs, s.queue[i]) { HardEpoch(s, i); }
      }
    } else {
      forall i: nat | i < |s.queue| ensures s.ordseq != 0 ==> !IsHard(s.rq.rqs, s.queue[i]) {
        assert s.queue[i] in Items(s);
        if s.queue[i].Rq? { RqEpoch(s, s.queue[i]); }
        if IsHard(s.rq.rqs, s.queue[i]) { HardEpoch(s, i); }
      }
    }
  }

  lemma SeqBound(s: QState, x: Id)
    ensures SEQ_DRAIN <= ReqSeq(s, x) <= SEQ_DONE
  {
  }

  lemma BackFenced(s: QState, x: Id)
    requires Core(s) && Fence(s) && x in s.driver
    ensures Fenced(s.rq, TakeBack(s, x).queue)
  {
    hide InStep;
    BackFront(s, x);
    assert x in Items(s);
    if x.Rq? { RqEpoch(s, x); }
    forall i: nat | i < |s.queue|
      ensures if i < BackPos(s, x) then Apart(s.rq, s.queue[i], x) else Apart(s.rq, x, s.queue[i])
    {
      if IsHard(s.rq.rqs, s.queue[i]) { HardEpoch(s, i); }
    }
    FencedInsert(s.rq, s.queue, BackPos(s, x), x);
  }

  lemma BackBefore(s: QState, x: Id, i: nat)
    requires Phased(s) && s.ordseq != 0 && i < |s.queue| && s.queue[i] != x
    ensures if i < BackPos(s, x) then Before(s, s.queue[i], x) else Before(s, x, s.queue[i])
  {
    var p := BackPos(s, x);
    if p <= i {
      assert ReqSeq(s, x) <= ReqSeq(s, s.queue[p]);
      assert p < i ==> Before(s, s.queue[p], s.queue[i]);
    }
  }

  lemma BackPhased(s: QState, t: QState, x: Id)
    requires Phased(s) && s.ordseq != 0 && x !in s.queue
    requires t.queue == InsertAt(s.queue, BackPos(s, x), x)
    requires forall y, z :: Before(t, y, z) == Before(s, y, z)
    ensures Phased(t)
  {
    hide Before, Phased;
    forall i: nat | i < |s.queue|
      ensures if i < BackPos(s, x) then Before(s, s.queue[i], x) else Before(s, x, s.queue[i])
    {
      assert s.queue[i] in s.queue;
      BackBefore(s, x, i);
    }
    PhasedInsert(s, t, BackPos(s, x), x);
  }

  lemma RequeuePassed(s: QState, x: Id)
    requires Core(s) && Passed(s) && x in s.driver
    ensures Passed(Requeue(s, x))
  {
    hide Book, RequeuePos;
    var t := Requeue(s, x);
    FlagsAttrs(s.rq, x, At(s.rq, x).(started := false, soft := true));
    InsertMembers(s.queue, BackPos(s, x), x);
  }

  lemma RequeueInStep(s: QState, x: Id)
    requires Core(s) && InStep(s) && x in s.driver && NoHards(s, BackPos(s, x))
    ensures InStep(Requeue(s, x))
  {
    hide Book, Phased, RequeuePos, ReqSeq;
    var t := Requeue(s, x);
    InsertMembers(s.queue, BackPos(s, x), x);
    FlagsAttrs(s.rq, x, At(s.rq, x).(started := false, soft := true));
    AttrsAt(s.rq, t.rq);
    if s.ordseq != 0 {
      SameSeqs(s, t);
      BackPhased(s, t, x);
    }
  }

  lemma RequeueFence(s: QState, x: Id)
    requires Core(s) && Fence(s) && x in s.driver
    ensures Fence(Requeue(s, x))
  {
    hide Core, Fenced, Passed, InStep;
    var t := Requeue(s, x);
    BackFenced(s, x);
    FlagsAttrs(s.rq, x, At(s.rq, x).(started := false, soft := true));
    FencedSame(s.rq, t.rq, t.queue);
    RequeuePassed(s, x);
    BackFront(s, x);
    RequeueInStep(s, x);
  }

  // ---------------------------------------------------------- completion

  /** Completion of a request moves no other request. */
  ghost predicate Completes(s: QState, t: QState, x: Id) {
    && t.queue == s.queue && t.rq == s.rq && t.sched == s.sched && t.driver == s.driver - {x}
    && t.ordered == s.ordered && t.orig == s.orig && t.barriers == s.barriers
    && NextBarrier(t) == NextBarrier(s)
    && (t.ordseq != 0 ==> s.ordseq != 0 && (IsDrained(s) ==> IsDrained(t)))
  }

  lemma AdvanceFacts(s: QState, bits: bv8, error: int)
    requires s.ordseq != 0 && bits != 0
    ensures var t := CompleteSeq(s, bits, error);
            && NextBarrier(t) == NextBarrier(s)
            && (t.ordseq != 0 ==> t.ordseq == s.ordseq | bits && (IsDrained(s) ==> IsDrained(t)))
  {
    assert s.ordseq & SEQ_DRAIN != 0 ==> (s.ordseq | bits) & SEQ_DRAIN != 0;
    assert s.ordseq | bits != 0;
  }

  lemma FinishRqCompletes(s: QState, x: Id, error: int)
    requires Core(s) && x in s.driver && x.Rq?
    ensures Completes(s, Finish(s, x, error), x)
  {
    hide Core, Items, CompleteSeq;
    var t := Release(s, x);
    if Drained(t) { AdvanceFacts(t, SEQ_DRAIN, 0); }
  }

  /** The drain test that comes with the completion of a proxy ends no sequence. */
  lemma ProxyChecked(s: QState, x: Id)
    requires Core(s) && x in s.driver && !x.Rq?
    ensures var t, u := Release(s, x), CheckDrained(Release(s, x));
            t.ordseq != 0 && u == t.(ordseq := u.ordseq) && u.ordseq != 0 && (IsDrained(s) ==> IsDrained(u))
  {
    hide Conserved, Hards, Places, CompleteSeq, BitsOf;
    var t := Release(s, x);
    assert x in Items(s);
    ReleasedPlaces(s, x);
    ReleasedProxy(s, x);
    ProxyCompleted(t, x);
    if Drained(t) { AdvanceFacts(t, SEQ_DRAIN, 0); }
  }

  lemma FinishProxyCompletes(s: QState, x: Id, error: int)
    requires Core(s) && x in s.driver && !x.Rq?
    ensures Completes(s, Finish(s, x, error), x)
  {
    hide Core, CompleteSeq, CheckDrained;
    ProxyChecked(s, x);
    AdvanceFacts(CheckDrained(Release(s, x)), Phase(x), error);
  }

  /** The drain phase goes on after a completion only if there is something left to end it. */
  lemma FinishUnfinished(s: QState, x: Id, error: int)
    requires Core(s) && x in s.driver && s.ordseq != 0
    requires var t := Finish(s, x, error); t.ordseq != 0 && !IsDrained(t)
    ensures Unfinished(Finish(s, x, error))
  {
    hide Conserved, Hards, Waiting, ReqSeq;
    var u, t := Release(s, x), Finish(s, x, error);
    if x.Rq? { FinishRqCompletes(s, x, error); } else { FinishProxyCompletes(s, x, error); }
    if t.driver == {} {
      ReleasedPlaces(s, x);
      assert Acc(u.driver) == {};
      NotDrained(s, x, error);
      SameSeqs(s, u);
      if s.queue != [] && IsHard(s.rq.rqs, s.queue[0]) { HeadColor(s); }
    }
  }

  /** If the drain is not over after a completion, the test for its end has failed. */
  lemma NotDrained(s: QState, x: Id, error: int)
    requires Core(s) && x in s.driver && s.ordseq != 0
    requires var t := Finish(s, x, error); t.ordseq != 0 && !IsDrained(t)
    ensures !Drained(Release(s, x)) && CurSeq(s.ordseq) == SEQ_DRAIN
  {
    hide Conserved, Hards, Waiting, ReqSeq;
    var u := Release(s, x);
    CurCases(s.ordseq);
    if x.Rq? {
      FinishRqCompletes(s, x, error);
    } else {
      FinishProxyCompletes(s, x, error);
      ProxyChecked(s, x);
      AdvanceFacts(CheckDrained(u), Phase(x), error);
    }
    if Drained(u) {
      OrBits(u.ordseq, SEQ_DRAIN);
      AdvanceFacts(u, SEQ_DRAIN, 0);
    }
  }

  lemma FinishFence(s: QState, x: Id, error: int)
    requires Core(s) && Fence(s) && x in s.driver
    ensures Fence(Finish(s, x, error))
  {
    hide Core, Finish, Fenced, Phased, Unfinished;
    var t := Finish(s, x, error);
    if x.Rq? { FinishRqCompletes(s, x, error); } else { FinishProxyCompletes(s, x, error); }
    if t.ordseq != 0 {
      if !IsDrained(t) { FinishUnfinished(s, x, error); } else { DrainedFinished(t); }
      SamePhased(s, t);
    }
  }

  lemma DrainedFinished(s: QState)
    requires IsDrained(s)
    ensures Unfinished(s)
  {
  }

  lemma SamePhased(s: QState, t: QState)
    requires Phased(s) && t.queue == s.queue && t.orig == s.orig && SameAttrs(s.rq, t.rq)
    ensures Phased(t)
  {
    hide Before;
    SameSeqs(s, t);
  }

  // ------------------------------------------------------------- peeking

  lemma MarkFence(s: QState)
    requires Core(s) && Fence(s) && s.queue != [] && !IsHard(s.rq.rqs, s.queue[0])
    ensures Fence(MarkStarted(s, s.queue[0]))
  {
    hide Fenced, Phased, Book;
    var t := MarkStarted(s, s.queue[0]);
    FlagsAttrs(s.rq, s.queue[0], At(s.rq, s.queue[0]).(started := true));
    AttrsAt(s.rq, t.rq);
    FencedSame(s.rq, t.rq, s.queue);
    if s.ordseq != 0 { SamePhased(s, t); }
  }

  lemma RejectFence(s: QState)
    requires Core(s) && Fence(s) && AtHead(s)
    ensures Fence(Reject(s))
  {
    hide Fenced, Book;
    FencedRemove(s.rq, s.queue, 0);
    assert s.queue[..0] + s.queue[1..] == s.queue[1..];
    assert forall x | x in s.queue[1..] :: x in s.queue;
  }

  lemma ModeFacts(mode: bv8, empty: bool)
    requires KnownMode(mode) && ByTag(Masked(mode, empty))
    ensures Masked(mode, empty) & BY_DRAIN == 0
  {
  }

  lemma BeginProxies(s: QState, x: Id)
    requires s.queue != [] && s.queue[0].Rq? && x in Proxies(BeginOrdered(s).h.begun)
    ensures !x.Rq? && At(BeginOrdered(s).rq, x).soft && !At(BeginOrdered(s).rq, x).started
  {
    ProxiesFacts([], BeginOrdered(s).h.begun, []);
  }

  lemma BeginFenced(s: QState)
    requires Core(s) && Fenced(s.rq, s.queue) && AtHead(s)
    ensures Fenced(BeginOrdered(s).rq, BeginOrdered(s).queue)
  {
    hide Core, Proxies, Masked, ProxyAttr;
    var t := BeginOrdered(s);
    var p := Proxies(t.h.begun);
    HeadFacts(s);
    ProxiesFacts([], t.h.begun, []);
    assert t.queue == p + s.queue[1..];
    assert forall i | 0 <= i < |p| :: p[i] in p;
    forall i, j | 0 <= i < j < |t.queue| ensures Apart(t.rq, t.queue[i], t.queue[j]) {
      if i >= |p| {
        assert Apart(s.rq, s.queue[i - |p| + 1], s.queue[j - |p| + 1]);
        TailIsRqs(s, i - |p|);
        TailIsRqs(s, j - |p|);
      }
    }
  }

  lemma TailIsRqs(s: QState, i: nat)
    requires Core(s) && AtHead(s) && i < |s.queue[1..]|
    ensures s.queue[i + 1].Rq? && s.queue[1..][i] == s.queue[i + 1]
  {
    assert s.queue[i + 1] in Items(s);
    HeadFacts(s);
  }

  lemma BeginPhased(s: QState)
    requires Core(s) && AtHead(s)
    ensures Phased(BeginOrdered(s))
  {
    hide Core, Masked, ProxyAttr;
    var t := BeginOrdered(s);
    var p := Proxies(t.h.begun);
    forall i, j | 0 <= i < j < |t.queue| ensures Before(t, t.queue[i], t.queue[j]) {
      if j >= |p| { TailIsRqs(s, j - |p|); }
    }
  }

  lemma BeginPassed(s: QState)
    requires Core(s) && Passed(s) && AtHead(s)
    ensures Passed(BeginOrdered(s))
  {
    hide Core, Proxies, Masked, ProxyAttr;
    var t := BeginOrdered(s);
    HeadFacts(s);
    assert forall x | x in s.driver || x in s.sched :: x in Items(s);
    assert forall x: Id | x.Rq? :: At(t.rq, x) == At(s.rq, x);
    forall x | x in t.queue && !x.Rq? ensures At(t.rq, x).soft && !At(t.rq, x).started {
      assert x in Proxies(t.h.begun) by { assert x !in s.queue[1..] by { HeadFacts(s); } }
      BeginProxies(s, x);
    }
  }

  lemma BeginSkips(s: QState)
    requires Core(s) && AtHead(s)
    ensures var b, t := BeginOrdered(s), StartOrdered(s);
            && t == b.(ordseq := t.ordseq, h := t.h) && t.inFlight == s.inFlight
            && NextBarrier(t) == s.h.ended + 1
            && (t.ordseq != 0 ==> (IsDrained(t) <==> t.ordered & BY_DRAIN == 0 || s.inFlight == 0))
  {
    hide Core, Items, Hards, Proxies, Masked, ProxyAttr;
    BeginPlaces(s);
    var b := BeginOrdered(s);
    SkipBits(b.ordered, b.inFlight);
    CurCases(SEQ_STARTED | Skip(b.ordered, b.inFlight));
  }

  lemma StartOrderedFence(s: QState)
    requires Core(s) && Fence(s) && AtHead(s)
    ensures Fence(StartOrdered(s))
  {
    hide Core, Fenced, Phased, BeginOrdered, StartOrdered;
    var b, t := BeginOrdered(s), StartOrdered(s);
    BeginFenced(s);
    BeginPhased(s);
    BeginPassed(s);
    BeginSkips(s);
    BeginMode(s);
    SamePhased(b, t);
    if s.driver == {} { NothingInFlight(s); }
  }

  lemma NothingInFlight(s: QState)
    requires Core(s) && s.driver == {}
    ensures s.inFlight == 0
  {
    assert Acc(s.driver) == {};
  }

  lemma BeginMode(s: QState)
    requires Core(s) && AtHead(s)
    ensures ByTag(BeginOrdered(s).ordered) ==> BeginOrdered(s).ordered & BY_DRAIN == 0
    ensures !ByTag(BeginOrdered(s).ordered) && s.nextOrdered != ORDERED_NONE ==> BeginOrdered(s).ordered & BY_DRAIN != 0
    ensures NextBarrier(BeginOrdered(s)) == s.h.ended + 1
    ensures BeginOrdered(s).driver == s.driver && SameAttrs(BeginOrdered(s).rq, BeginOrdered(s).rq)
  {
    hide Conserved, Bits, Waiting, Places, Colors;
    var e := At(s.rq, s.queue[0]).empty;
    if ByTag(Masked(s.nextOrdered, e)) { ModeFacts(s.nextOrdered, e); }
  }

  lemma ServedFence(s: QState)
    requires Core(s) && Fence(s) && s.queue != [] && !AtHead(s) && DoOrdered(s).1 == Serve
    ensures Fence(Peek(s))
  {
    hide Fence;
    assert s.queue[0] in Items(s);
    ServedNotHard(s);
    assert DoOrdered(s).0 == s;
    MarkFence(s);
  }

  lemma PeekFence(s: QState)
    requires Core(s) && Fence(s) && s.queue != []
    ensures Fence(Peek(s))
  {
    hide Fence;
    assert s.queue[0] in Items(s);
    if !AtHead(s) {
      if DoOrdered(s).1 == Serve { ServedFence(s); } else { assert Peek(s) == s; }
    } else if s.nextOrdered == ORDERED_NONE {
      RejectFence(s);
    } else {
      StartOrderedCore(s);
      StartOrderedFence(s);
      if StartVerdict(s) == Serve {
        ServedNotHard(s);
        MarkFence(StartOrdered(s));
      }
    }
  }

  // ---------------------------------------------------------------- runs

  lemma OtherFence(s: QState, e: Event)
    requires Core(s) && Fence(s) && Enabled(s, e) && (e.BarPart? || e.SetOrdered?)
    ensures Fence(Step(s, e))
  {
    hide Fenced, Phased, Core;
    if s.ordseq != 0 { SamePhased(s, Step(s, e)); }
  }

  /** Every step of a run keeps the fence, in every mode. */
  lemma StepFence(s: QState, e: Event)
    requires Core(s) && Fence(s) && Enabled(s, e)
    ensures Fence(Step(s, e))
  {
    hide Core, Fence;
    match e {
      case Add(a, order) => AddFence(s, a, order);
      case Dispatching(d) => DispatchFence(s, d);
      case Peeking => PeekFence(s);
      case Starting(p) => StartFence(s, p);
      case Requeueing(x) => RequeueFence(s, x);
      case Finishing(x, error) => FinishFence(s, x, error);
      case BarPart(_) => OtherFence(s, e);
      case SetOrdered(_) => OtherFence(s, e);
    }
  }
}
