/**
  What every run of the barrier machine keeps, whatever the ordered mode:
  no request is lost or duplicated, and the bits of ordseq say exactly which
  proxies of the sequence in progress are still outstanding.
*/
module BarrierInvariants {
  import opened NumberLists
  import opened OrderedBits
  import opened Barrier

  function Members(queue: seq<Id>): (m: set<Id>) {
    set x | x in queue
  }

  function Items(s: QState): (m: set<Id>) {
    Members(s.queue) + s.sched + s.driver
  }

  /** No request is in two places, or twice in one. */
  ghost predicate Unique(s: QState) {
    && Distinct(s.queue)
    && (forall x | x in s.queue :: x !in s.sched && x !in s.driver)
    && s.sched !! s.driver
  }

  ghost predicate Flags(s: QState) {
    && (forall x | x in s.sched ::
          x.Rq? && !At(s.rq, x).hard && !At(s.rq, x).started && !At(s.rq, x).soft)
    && (forall x | x in s.driver :: At(s.rq, x).started && !(x.Rq? && At(s.rq, x).hard))
    && (forall x | x in s.queue && x.Rq? && At(s.rq, x).hard :: !At(s.rq, x).started)
  }

  /** The requests counted in flight. */
  function Acc(driver: set<Id>): (a: set<Id>) {
    set x | x in driver && (x.Rq? || x.Bar?)
  }

  /** Where the requests are. */
  ghost predicate Places(s: QState) {
    Unique(s) && Flags(s) && s.inFlight == |Acc(s.driver)|
  }

  /** `n` is the barrier of the sequence in progress. */
  predicate Current(s: QState, n: nat) {
    s.ordseq != 0 && s.orig == n
  }

  predicate ValidItem(s: QState, x: Id) {
    if x.Rq? then x.n < |s.rq.rqs| && x.n !in s.h.done && !Current(s, x.n)
    else s.ordseq != 0 && At(s.rq, x).epoch == At(s.rq, Rq(s.orig)).epoch
  }

  /** Every request ever added is somewhere, or completed. */
  ghost predicate Conserved(s: QState) {
    && (forall n: nat | n < |s.rq.rqs| :: n in s.h.done || Current(s, n) || Rq(n) in Items(s))
    && (forall n | n in s.h.done :: n < |s.rq.rqs|)
    && (forall x | x in Items(s) :: ValidItem(s, x))
  }

  /** The proxies in the queue or the driver. */
  function Outstanding(s: QState): (m: set<Id>) {
    set x | x in Items(s) && !x.Rq?
  }

  /** A proxy is outstanding until its bit is set; its bit is set if it is not wanted or finished. */
  ghost predicate BitsOf(ordseq: bv8, begun: bv8, finished: set<Id>, outstanding: set<Id>) {
    && ordseq & SEQ_STARTED != 0
    && ordseq & 0xe0 == 0
    && (forall x: Id | !x.Rq? :: (ordseq & Phase(x) == 0) == (x in outstanding))
    && (forall x: Id | !x.Rq? ::
          (ordseq & Phase(x) == 0) == (begun & Wanted(x) != 0 && x !in finished))
  }

  /** The sequence of `s.orig` is in progress and `ordseq` is, or is about to be, its bits. */
  ghost predicate InProgress(s: QState, ordseq: bv8) {
    && s.ordseq != 0
    && s.orig < |s.rq.rqs| && At(s.rq, Rq(s.orig)).hard && s.orig !in s.h.done
    && At(s.rq, Rq(s.orig)).epoch == s.h.ended
    && BitsOf(ordseq, s.h.begun, s.h.finished, Outstanding(s))
  }

  ghost predicate Bits(s: QState) {
    s.ordseq != 0 ==> CurSeq(s.ordseq) != SEQ_DONE && InProgress(s, s.ordseq)
  }

  /** Requests are numbered in the order of addition. */
  ghost predicate History(s: QState) {
    && (forall i, j | 0 <= i < j < |s.rq.rqs| ::
          s.rq.rqs[i].epoch <= s.rq.rqs[j].epoch && (s.rq.rqs[i].hard ==> s.rq.rqs[i].epoch < s.rq.rqs[j].epoch))
    && (forall i | 0 <= i < |s.rq.rqs| ::
          s.rq.rqs[i].epoch <= s.barriers && (s.rq.rqs[i].hard ==> s.rq.rqs[i].epoch < s.barriers))
  }

  /** The epochs of the hard barriers in a queue, in queue order. */
  function Hards(rqs: seq<Attr>, queue: seq<Id>): (h: seq<nat>)
    decreases |queue|
  {
    if queue == [] then []
    else (if IsHard(rqs, queue[0]) then [rqs[queue[0].n].epoch] else []) + Hards(rqs, queue[1..])
  }

  predicate IsHard(rqs: seq<Attr>, x: Id) {
    x.Rq? && x.n < |rqs| && rqs[x.n].hard
  }

  /** The epoch of the next hard barrier to reach the head of the queue. */
  function NextBarrier(s: QState): (e: nat) {
    if s.ordseq == 0 then s.h.ended else s.h.ended + 1
  }

  /** The barriers that have not begun wait in the queue, in the order of addition. */
  ghost predicate Waiting(s: QState) {
    && NextBarrier(s) <= s.barriers
    && Consecutive(Hards(s.rq.rqs, s.queue), NextBarrier(s), s.barriers)
  }

  /** `h` is lo, lo + 1, ..., hi - 1. */
  predicate Consecutive(h: seq<nat>, lo: nat, hi: nat) {
    lo + |h| == hi && forall i | 0 <= i < |h| :: h[i] == lo + i
  }

  ghost predicate Colors(s: QState) {
    && (forall i | 0 <= i < |s.rq.rqs| :: s.rq.rqs[i].color == (s.rq.rqs[i].epoch % 2 == 1))
    && s.ordcolor == (s.barriers % 2 == 1)
  }

  /** What the requests are. */
  ghost predicate Book(s: QState) {
    KnownMode(s.nextOrdered) && Conserved(s) && Bits(s) && History(s) && Colors(s) && Waiting(s)
  }

  ghost predicate Core(s: QState) {
    Places(s) && Book(s)
  }

  // ------------------------------------------------- moves between places

  lemma InsertMembers(queue: seq<Id>, p: nat, x: Id)
    requires p <= |queue|
    ensures |InsertAt(queue, p, x)| == |queue| + 1
    ensures Members(InsertAt(queue, p, x)) == Members(queue) + {x}
    ensures forall y :: y in InsertAt(queue, p, x) <==> y in queue || y == x
    ensures forall i | 0 <= i < |queue| + 1 ::
              InsertAt(queue, p, x)[i] == if i < p then queue[i] else if i == p then x else queue[i - 1]
  {
    var q := InsertAt(queue, p, x);
    assert q[p] == x;
    forall y | y in queue ensures y in q {
      var i :| 0 <= i < |queue| && queue[i] == y;
      assert q[if i < p then i else i + 1] == y;
    }
  }

  lemma RemoveMembers(queue: seq<Id>, p: nat)
    requires p < |queue|
    requires Distinct(queue)
    ensures Members(queue[..p] + queue[p + 1..]) == Members(queue) - {queue[p]}
    ensures forall y :: y in queue[..p] + queue[p + 1..] <==> y in queue && y != queue[p]
    ensures forall i | 0 <= i < |queue| - 1 ::
              (queue[..p] + queue[p + 1..])[i] == if i < p then queue[i] else queue[i + 1]
  {
    var q := queue[..p] + queue[p + 1..];
    forall y | y in queue && y != queue[p] ensures y in q {
      var i :| 0 <= i < |queue| && queue[i] == y;
      assert q[if i < p then i else i - 1] == y;
    }
  }

  lemma {:induction false} HardsAppend(rqs: seq<Attr>, q1: seq<Id>, q2: seq<Id>)
    ensures Hards(rqs, q1 + q2) == Hards(rqs, q1) + Hards(rqs, q2)
    decreases |q1|
  {
    if q1 == [] {
      assert q1 + q2 == q2;
    } else {
      assert (q1 + q2)[1..] == q1[1..] + q2;
      HardsAppend(rqs, q1[1..], q2);
    }
  }

  lemma {:induction false} HardsInsert(rqs: seq<Attr>, queue: seq<Id>, p: nat, x: Id)
    requires p <= |queue| && !IsHard(rqs, x)
    ensures Hards(rqs, InsertAt(queue, p, x)) == Hards(rqs, queue)
    decreases p
  {
    if p == 0 {
      assert InsertAt(queue, p, x)[1..] == queue;
    } else {
      assert InsertAt(queue, p, x)[1..] == InsertAt(queue[1..], p - 1, x);
      HardsInsert(rqs, queue[1..], p - 1, x);
    }
  }

  lemma HardsRemove(rqs: seq<Attr>, queue: seq<Id>, p: nat)
    requires p < |queue| && !IsHard(rqs, queue[p])
    ensures Hards(rqs, queue[..p] + queue[p + 1..]) == Hards(rqs, queue)
  {
    var q := queue[..p] + queue[p + 1..];
    HardsInsert(rqs, q, p, queue[p]);
    assert InsertAt(q, p, queue[p]) == queue;
  }

  lemma {:induction false} HardsSame(rqs: seq<Attr>, rqs': seq<Attr>, queue: seq<Id>)
    requires forall x | x in queue :: IsHard(rqs', x) == IsHard(rqs, x)
    requires forall x | x in queue && IsHard(rqs, x) && IsHard(rqs', x) :: rqs'[x.n].epoch == rqs[x.n].epoch
    ensures Hards(rqs', queue) == Hards(rqs, queue)
    decreases |queue|
  {
    if queue != [] {
      assert queue[0] in queue && forall x | x in queue[1..] :: x in queue;
      HardsSame(rqs, rqs', queue[1..]);
    }
  }

  /** A waiting barrier is where its epoch is listed. */
  lemma {:induction false} HardsAt(rqs: seq<Attr>, queue: seq<Id>, k: nat) returns (i: nat)
    requires k < |Hards(rqs, queue)|
    ensures i < |queue| && IsHard(rqs, queue[i]) && rqs[queue[i].n].epoch == Hards(rqs, queue)[k]
    decreases |queue|
  {
    assert queue != [];
    var own := if IsHard(rqs, queue[0]) then 1 else 0;
    if k < own {
      i := 0;
    } else {
      var j := HardsAt(rqs, queue[1..], k - own);
      i := j + 1;
    }
  }

  lemma AccRemove(driver: set<Id>, x: Id)
    requires x in driver
    ensures |Acc(driver - {x})| == if x.Rq? || x.Bar? then |Acc(driver)| - 1 else |Acc(driver)|
  {
    if x.Rq? || x.Bar? {
      assert Acc(driver - {x}) == Acc(driver) - {x};
    } else {
      assert Acc(driver - {x}) == Acc(driver);
    }
  }

  lemma AccAdd(driver: set<Id>, x: Id)
    requires x !in driver
    ensures |Acc(driver + {x})| == if x.Rq? || x.Bar? then |Acc(driver)| + 1 else |Acc(driver)|
  {
    AccRemove(driver + {x}, x);
    assert driver + {x} - {x} == driver;
  }

  /** `t` differs from `s` in places and in flags only. */
  ghost predicate SameBook(s: QState, t: QState) {
    && t.nextOrdered == s.nextOrdered && t.ordseq == s.ordseq && t.orig == s.orig
    && t.h.done == s.h.done && t.h.begun == s.h.begun && t.h.finished == s.h.finished
    && t.barriers == s.barriers && t.h.ended == s.h.ended && t.ordcolor == s.ordcolor
    && Items(t) == Items(s)
    && Hards(t.rq.rqs, t.queue) == Hards(s.rq.rqs, s.queue)
    && SameAttrs(s.rq, t.rq)
  }

  ghost predicate SameAttrs(m: Store, m': Store) {
    && |m'.rqs| == |m.rqs|
    && forall x: Id :: At(m', x) == At(m, x).(started := At(m', x).started, soft := At(m', x).soft)
  }

  lemma AttrsAt(m: Store, m': Store)
    requires SameAttrs(m, m')
    ensures forall i | 0 <= i < |m.rqs| ::
              m'.rqs[i] == m.rqs[i].(started := m'.rqs[i].started, soft := m'.rqs[i].soft)
  {
    assert forall i | 0 <= i < |m.rqs| :: At(m', Rq(i)) == m'.rqs[i] && At(m, Rq(i)) == m.rqs[i];
  }

  lemma FrameHistory(s: QState, t: QState)
    requires SameBook(s, t) && History(s) && Colors(s)
    ensures History(t) && Colors(t)
  {
    AttrsAt(s.rq, t.rq);
  }

  lemma FrameConserved(s: QState, t: QState)
    requires SameBook(s, t) && Conserved(s) && Bits(s)
    ensures Conserved(t) && Bits(t)
  {
    assert Outstanding(t) == Outstanding(s);
  }

  lemma FrameBook(s: QState, t: QState)
    requires SameBook(s, t) && Book(s)
    ensures Book(t)
  {
    FrameHistory(s, t);
    FrameConserved(s, t);
  }

  /** A request moves into the dispatch queue. */
  lemma IntoQueueSame(s: QState, t: QState, p: nat, x: Id)
    requires p <= |s.queue| && x in Items(s) && !IsHard(s.rq.rqs, x)
    requires t == s.(queue := InsertAt(s.queue, p, x), sched := s.sched - {x}, driver := s.driver - {x},
                     inFlight := t.inFlight, h := s.h.(log := t.h.log))
    ensures SameBook(s, t)
  {
    InsertMembers(s.queue, p, x);
    HardsInsert(s.rq.rqs, s.queue, p, x);
  }

  lemma DispatchSame(s: QState, d: Dispatch)
    requires Places(s) && d.rq in s.sched
    ensures SameBook(s, DispatchOne(s, d))
  {
    assert s.driver - {d.rq} == s.driver;
    IntoQueueSame(s, DispatchOne(s, d), DispatchPos(s.rq, s.queue, d), d.rq);
  }

  lemma DispatchPlaces(s: QState, d: Dispatch)
    requires Places(s) && d.rq in s.sched
    ensures Places(DispatchOne(s, d))
  {
    InsertMembers(s.queue, DispatchPos(s.rq, s.queue, d), d.rq);
  }

  lemma StartSame(s: QState, p: nat)
    requires Places(s) && p < |s.queue| && At(s.rq, s.queue[p]).started
    ensures SameBook(s, Start(s, p))
  {
    RemoveMembers(s.queue, p);
    HardsRemove(s.rq.rqs, s.queue, p);
  }

  lemma StartPlaces(s: QState, p: nat)
    requires Places(s) && p < |s.queue| && At(s.rq, s.queue[p]).started
    ensures Places(Start(s, p))
  {
    RemoveMembers(s.queue, p);
    AccAdd(s.driver, s.queue[p]);
  }

  lemma FlagsAttrs(m: Store, x: Id, a: Attr)
    requires a == At(m, x).(started := a.started, soft := a.soft)
    ensures SameAttrs(m, SetAt(m, x, a))
  {
    var m' := SetAt(m, x, a);
    if x.Rq? && x.n >= |m.rqs| {
      assert m' == m;
    } else {
      assert At(m', x) == a;
    }
  }

  /** Flags may change while a request is in the dispatch queue. */
  lemma FlagsSame(s: QState, x: Id, a: Attr)
    requires a == At(s.rq, x).(started := a.started, soft := a.soft)
    ensures SameBook(s, s.(rq := SetAt(s.rq, x, a)))
  {
    var t := s.(rq := SetAt(s.rq, x, a));
    FlagsAttrs(s.rq, x, a);
    AttrsAt(s.rq, t.rq);
    HardsSame(s.rq.rqs, t.rq.rqs, s.queue);
  }

  lemma FlagsPlaces(s: QState, x: Id, a: Attr)
    requires Places(s) && x in s.queue
    requires a == At(s.rq, x).(started := a.started, soft := a.soft)
    requires a.started ==> !IsHard(s.rq.rqs, x)
    ensures Places(s.(rq := SetAt(s.rq, x, a)))
  {
  }

  lemma TakeBackPlaces(s: QState, x: Id)
    requires Places(s) && x in s.driver
    ensures Places(TakeBack(s, x))
  {
    InsertMembers(s.queue, if s.ordseq == 0 then 0 else RequeuePos(s, s.queue, x), x);
    AccRemove(s.driver, x);
  }

  lemma SameTransitive(s: QState, t: QState, u: QState)
    requires SameBook(s, t) && SameBook(t, u)
    ensures SameBook(s, u)
  {
  }

  lemma RequeueSame(s: QState, x: Id)
    requires Places(s) && x in s.driver
    ensures SameBook(s, Requeue(s, x))
  {
    var t := TakeBack(s, x);
    var a := At(s.rq, x).(started := false, soft := true);
    assert s.sched - {x} == s.sched;
    IntoQueueSame(s, t, if s.ordseq == 0 then 0 else RequeuePos(s, s.queue, x), x);
    FlagsSame(t, x, a);
    SameTransitive(s, t, t.(rq := SetAt(s.rq, x, a)));
  }

  lemma RequeuePlaces(s: QState, x: Id)
    requires Places(s) && x in s.driver
    ensures Places(Requeue(s, x))
  {
    TakeBackPlaces(s, x);
    InsertMembers(s.queue, if s.ordseq == 0 then 0 else RequeuePos(s, s.queue, x), x);
    FlagsPlaces(TakeBack(s, x), x, At(s.rq, x).(started := false, soft := true));
  }

  // ------------------------------------------------------------- addition

  lemma {:induction false} DrainCore(s: QState, order: seq<Dispatch>, rest: set<Id>)
    requires Core(s) && DrainsTo(s.sched, order, rest)
    ensures Core(Drain(s, order)) && SameBook(s, Drain(s, order)) && Drain(s, order).sched == rest
    decreases |order|
  {
    if order != [] {
      var t := DispatchOne(s, order[0]);
      DispatchSame(s, order[0]);
      DispatchPlaces(s, order[0]);
      FrameBook(s, t);
      DrainCore(t, order[1..], rest);
    }
  }

  lemma InsertFacts(s: QState, a: NewRequest)
    ensures Items(Insert(s, a)) == Items(s) + {Rq(|s.rq.rqs|)}
    ensures forall x: Id | x != Rq(|s.rq.rqs|) :: At(Insert(s, a).rq, x) == At(s.rq, x)
  {
  }

  lemma InsertConserved(s: QState, a: NewRequest)
    requires Conserved(s)
    requires s.ordseq != 0 ==> s.orig < |s.rq.rqs|
    ensures Conserved(Insert(s, a))
  {
    InsertFacts(s, a);
  }

  lemma InsertBits(s: QState, a: NewRequest)
    requires Bits(s)
    ensures Bits(Insert(s, a))
  {
    InsertFacts(s, a);
    assert Outstanding(Insert(s, a)) == Outstanding(s);
  }

  lemma HardsGrow(rqs: seq<Attr>, a: Attr, queue: seq<Id>)
    requires forall x | x in queue && x.Rq? :: x.n < |rqs|
    ensures Hards(rqs + [a], queue) == Hards(rqs, queue)
    ensures Hards(rqs + [a], queue + [Rq(|rqs|)]) == Hards(rqs, queue) + if a.hard then [a.epoch] else []
  {
    HardsSame(rqs, rqs + [a], queue);
    HardsAppend(rqs + [a], queue, [Rq(|rqs|)]);
  }

  lemma InsertWaiting(s: QState, a: NewRequest)
    requires Waiting(s)
    requires forall x | x in s.queue && x.Rq? :: x.n < |s.rq.rqs|
    ensures Waiting(Insert(s, a))
  {
    HardsGrow(s.rq.rqs, Insert(s, a).rq.rqs[|s.rq.rqs|], s.queue);
  }

  lemma InsertBook(s: QState, a: NewRequest)
    requires Book(s)
    ensures Book(Insert(s, a))
  {
    hide Conserved, Bits, Waiting;
    BookBounds(s);
    InsertConserved(s, a);
    InsertBits(s, a);
    InsertWaiting(s, a);
    InsertPast(s, a);
  }

  lemma BookBounds(s: QState)
    requires Book(s)
    ensures s.ordseq != 0 ==> s.orig < |s.rq.rqs|
    ensures forall x | x in s.queue && x.Rq? :: x.n < |s.rq.rqs|
  {
    hide Waiting;
    assert forall x | x in s.queue :: x in Items(s);
  }

  lemma InsertPast(s: QState, a: NewRequest)
    requires Book(s)
    ensures History(Insert(s, a)) && Colors(Insert(s, a))
  {
    hide Bits, Waiting;
    assert forall x | x in s.queue :: x in Items(s);
  }

  lemma InsertPlaces(s: QState, a: NewRequest)
    requires Core(s)
    ensures Places(Insert(s, a))
  {
    InsertFacts(s, a);
    assert Rq(|s.rq.rqs|) !in Items(s);
  }

  // ------------------------------------------------------- the sequence

  /** Of the five bits of a sequence, the first clear one is DONE only when all are set. */
  lemma CurCases(ordseq: bv8)
    requires ordseq & SEQ_STARTED != 0 && ordseq & 0xe0 == 0
    ensures var cur := CurSeq(ordseq);
            && (cur == SEQ_DRAIN <==> ordseq & SEQ_DRAIN == 0)
            && (cur == SEQ_PREFLUSH <==> ordseq & SEQ_DRAIN != 0 && ordseq & SEQ_PREFLUSH == 0)
            && (cur == SEQ_BAR <==> ordseq & SEQ_DRAIN != 0 && ordseq & SEQ_PREFLUSH != 0 && ordseq & SEQ_BAR == 0)
            && (cur == SEQ_POSTFLUSH <==> ordseq & SEQ_DRAIN != 0 && ordseq & SEQ_PREFLUSH != 0 &&
                                          ordseq & SEQ_BAR != 0 && ordseq & SEQ_POSTFLUSH == 0)
            && (cur == SEQ_DONE <==> ordseq & SEQ_DRAIN != 0 && ordseq & SEQ_PREFLUSH != 0 &&
                                     ordseq & SEQ_BAR != 0 && ordseq & SEQ_POSTFLUSH != 0)
            && (cur == SEQ_DRAIN || cur == SEQ_PREFLUSH || cur == SEQ_BAR || cur == SEQ_POSTFLUSH || cur == SEQ_DONE)
  {
  }

  /** Setting one phase bit leaves the others. */
  lemma OrBits(ordseq: bv8, bit: bv8)
    requires bit == SEQ_DRAIN || bit == SEQ_PREFLUSH || bit == SEQ_BAR || bit == SEQ_POSTFLUSH
    ensures (ordseq | bit) & bit != 0
    ensures (ordseq | bit) & 0xe0 == ordseq & 0xe0
    ensures (ordseq | bit) & SEQ_STARTED == ordseq & SEQ_STARTED
    ensures bit != SEQ_DRAIN ==> (ordseq | bit) & SEQ_DRAIN == ordseq & SEQ_DRAIN
    ensures bit != SEQ_PREFLUSH ==> (ordseq | bit) & SEQ_PREFLUSH == ordseq & SEQ_PREFLUSH
    ensures bit != SEQ_BAR ==> (ordseq | bit) & SEQ_BAR == ordseq & SEQ_BAR
    ensures bit != SEQ_POSTFLUSH ==> (ordseq | bit) & SEQ_POSTFLUSH == ordseq & SEQ_POSTFLUSH
  {
  }

  lemma SkipBits(mode: bv8, inFlight: int)
    ensures var f := SEQ_STARTED | Skip(mode, inFlight);
            && f & SEQ_STARTED != 0 && f & 0xe0 == 0
            && SEQ_STARTED & Skip(mode, inFlight) == 0
            && (f & SEQ_DRAIN == 0 <==> mode & BY_DRAIN != 0 && inFlight != 0)
            && (f & SEQ_PREFLUSH == 0 <==> mode & DO_PREFLUSH != 0)
            && (f & SEQ_BAR == 0 <==> mode & DO_BAR != 0)
            && (f & SEQ_POSTFLUSH == 0 <==> mode & DO_POSTFLUSH != 0)
  {
  }

  lemma NoneOutstanding(s: QState, ordseq: bv8)
    requires InProgress(s, ordseq) && CurSeq(ordseq) == SEQ_DONE
    ensures forall x | x in Items(s) :: x.Rq?
  {
    CurCases(ordseq);
    forall x | x in Items(s) ensures x.Rq? {
      assert x.Rq? || x in Outstanding(s);
    }
  }

  lemma CompletePlaces(s: QState, bits: bv8, error: int)
    requires Places(s)
    ensures Places(CompleteSeq(s, bits, error))
  {
  }

  lemma CompleteBits(s: QState, bits: bv8, error: int)
    requires InProgress(s, s.ordseq | bits)
    ensures Bits(CompleteSeq(s, bits, error))
  {
    assert Outstanding(CompleteSeq(s, bits, error)) == Outstanding(s);
  }

  lemma CompleteConserved(s: QState, bits: bv8, error: int)
    requires Conserved(s) && InProgress(s, s.ordseq | bits)
    ensures Conserved(CompleteSeq(s, bits, error))
  {
    assert Items(CompleteSeq(s, bits, error)) == Items(s);
    if CurSeq(s.ordseq | bits) == SEQ_DONE {
      NoneOutstanding(s, s.ordseq | bits);
    }
  }

  lemma CompleteBook(s: QState, bits: bv8, error: int)
    requires KnownMode(s.nextOrdered) && Conserved(s) && History(s) && Colors(s) && Waiting(s)
    requires InProgress(s, s.ordseq | bits)
    ensures Book(CompleteSeq(s, bits, error))
  {
    CompleteBits(s, bits, error);
    CompleteConserved(s, bits, error);
  }

  /** The barrier at the head of the queue, about to begin or be rejected. */
  ghost predicate AtHead(s: QState) {
    s.ordseq == 0 && s.queue != [] && IsHard(s.rq.rqs, s.queue[0])
  }

  lemma HeadFacts(s: QState)
    requires Core(s) && AtHead(s)
    ensures s.queue[0].n !in s.h.done && !At(s.rq, s.queue[0]).started
    ensures At(s.rq, s.queue[0]).epoch == s.h.ended < s.barriers
    ensures Consecutive(Hards(s.rq.rqs, s.queue[1..]), s.h.ended + 1, s.barriers)
    ensures Members(s.queue[1..]) == Members(s.queue) - {s.queue[0]}
    ensures forall x | x in s.queue[1..] :: x in s.queue && x != s.queue[0]
    ensures forall x | x in Items(s) :: x.Rq?
  {
    assert s.queue[0] in Items(s);
    var h := Hards(s.rq.rqs, s.queue);
    assert h == [At(s.rq, s.queue[0]).epoch] + Hards(s.rq.rqs, s.queue[1..]);
    assert h[0] == s.h.ended;
    RemoveMembers(s.queue, 0);
    assert s.queue[..0] + s.queue[1..] == s.queue[1..];
    assert forall i | 0 <= i < |Hards(s.rq.rqs, s.queue[1..])| :: Hards(s.rq.rqs, s.queue[1..])[i] == h[i + 1];
  }

  lemma ProxiesFacts(rqs: seq<Attr>, mode: bv8, queue: seq<Id>)
    ensures Hards(rqs, Proxies(mode) + queue) == Hards(rqs, queue)
    ensures forall x: Id :: x in Proxies(mode) <==> !x.Rq? && mode & Wanted(x) != 0
    ensures Distinct(Proxies(mode))
    ensures |Proxies(mode)| <= 3
  {
    hide Proxies, Distinct;
    ProxiesAre(mode);
    HardsAppend(rqs, Proxies(mode), queue);
    HardsNone(rqs, Proxies(mode));
  }

  lemma ProxiesAre(mode: bv8)
    ensures forall x: Id :: x in Proxies(mode) <==> !x.Rq? && mode & Wanted(x) != 0
    ensures Distinct(Proxies(mode))
    ensures |Proxies(mode)| <= 3
  {
    hide Distinct;
    assert forall x: Id :: x in Proxies(mode) <==> !x.Rq? && mode & Wanted(x) != 0;
    ProxiesDistinct(mode);
  }

  lemma ProxiesDistinct(mode: bv8)
    ensures Distinct(Proxies(mode))
  {
  }

  lemma {:induction false} HardsNone(rqs: seq<Attr>, queue: seq<Id>)
    requires forall x | x in queue :: !x.Rq?
    ensures Hards(rqs, queue) == []
  {
    if queue != [] {
      assert queue[0] in queue && forall x | x in queue[1..] :: x in queue;
      HardsNone(rqs, queue[1..]);
    }
  }

  lemma RejectCore(s: QState)
    requires Core(s) && AtHead(s)
    ensures Core(Reject(s))
  {
    HeadFacts(s);
    assert Items(Reject(s)) == Items(s) - {s.queue[0]};
    RejectPlaces(s);
  }

  lemma RejectPlaces(s: QState)
    requires Core(s) && AtHead(s)
    ensures Places(Reject(s))
  {
    HeadFacts(s);
  }

  lemma DistinctConcat(p: seq<Id>, q: seq<Id>)
    requires Distinct(p) && Distinct(q)
    requires forall x | x in p :: x !in q
    ensures Distinct(p + q)
    ensures forall x :: x in p + q <==> x in p || x in q
  {
    forall i, j | 0 <= i < j < |p + q| ensures (p + q)[i] != (p + q)[j] {
      if i < |p| <= j {
        assert (p + q)[i] in p && (p + q)[j] in q;
      }
    }
  }

  lemma BeginUnique(s: QState)
    requires Core(s) && AtHead(s)
    ensures Unique(BeginOrdered(s))
  {
    HeadFacts(s);
    var t := BeginOrdered(s);
    ProxiesFacts(s.rq.rqs, t.h.begun, s.queue[1..]);
    assert forall x | x in s.queue :: x in Items(s);
    DistinctConcat(Proxies(t.h.begun), s.queue[1..]);
  }

  lemma BeginPlaces(s: QState)
    requires Core(s) && AtHead(s)
    ensures Places(BeginOrdered(s))
    ensures BeginOrdered(s).inFlight == s.inFlight
  {
    HeadFacts(s);
    BeginUnique(s);
    var t := BeginOrdered(s);
    assert forall x: Id | x.Rq? :: At(t.rq, x) == At(s.rq, x);
    assert forall x | x in t.queue && x.Rq? :: x in s.queue[1..];
  }

  lemma BeginItems(s: QState)
    requires Core(s) && AtHead(s)
    ensures var t := BeginOrdered(s);
            && Items(t) == Items(s) - {s.queue[0]} + Members(Proxies(t.h.begun))
            && Outstanding(t) == Members(Proxies(t.h.begun))
  {
    HeadFacts(s);
    var t := BeginOrdered(s);
    ProxiesFacts(s.rq.rqs, t.h.begun, s.queue[1..]);
    assert Members(t.queue) == Members(Proxies(t.h.begun)) + Members(s.queue[1..]);
  }

  lemma BeginConserved(s: QState)
    requires Core(s) && AtHead(s)
    ensures Conserved(BeginOrdered(s))
  {
    HeadFacts(s);
    BeginItems(s);
    var t := BeginOrdered(s);
    assert forall x: Id | x.Rq? :: At(t.rq, x) == At(s.rq, x);
    forall x | x in Proxies(t.h.begun) ensures ValidItem(t, x) {
      ProxiesFacts(s.rq.rqs, t.h.begun, s.queue[1..]);
    }
  }

  lemma BeginBits(mode: bv8, inFlight: int)
    ensures BitsOf(SEQ_STARTED | Skip(mode, inFlight), mode, {}, Members(Proxies(mode)))
  {
    SkipBits(mode, inFlight);
    ProxiesFacts([], mode, []);
  }

  lemma BeginInProgress(s: QState)
    requires Core(s) && AtHead(s)
    ensures var t := BeginOrdered(s);
            InProgress(t, t.ordseq | Skip(t.ordered, t.inFlight))
  {
    HeadFacts(s);
    BeginItems(s);
    var t := BeginOrdered(s);
    SkipBits(t.ordered, t.inFlight);
    BeginBits(t.h.begun, t.inFlight);
  }

  lemma BeginWaiting(s: QState)
    requires Core(s) && AtHead(s)
    ensures Waiting(BeginOrdered(s))
  {
    HeadFacts(s);
    var t := BeginOrdered(s);
    ProxiesFacts(s.rq.rqs, t.h.begun, s.queue[1..]);
  }

  lemma StartOrderedCore(s: QState)
    requires Core(s) && AtHead(s)
    ensures Core(StartOrdered(s))
  {
    var t := BeginOrdered(s);
    BeginPlaces(s);
    BeginConserved(s);
    BeginInProgress(s);
    BeginWaiting(s);
    CompleteBook(t, Skip(t.ordered, t.inFlight), 0);
    CompletePlaces(t, Skip(t.ordered, t.inFlight), 0);
  }

  // ------------------------------------------------------- completion

  lemma ReleasedPlaces(s: QState, x: Id)
    requires Places(s) && x in s.driver
    ensures Places(Release(s, x))
    ensures Items(Release(s, x)) == Items(s) - {x}
  {
    AccRemove(s.driver, x);
  }

  lemma ReleasedRq(s: QState, x: Id)
    requires Core(s) && x in s.driver && x.Rq?
    ensures Book(Release(s, x))
  {
    ReleasedPlaces(s, x);
    assert Outstanding(Release(s, x)) == Outstanding(s);
  }

  /** The bit of a finished proxy is still clear, and setting it restores the invariant. */
  lemma FinishedBits(ordseq: bv8, begun: bv8, finished: set<Id>, outstanding: set<Id>, x: Id)
    requires BitsOf(ordseq, begun, finished, outstanding)
    requires !x.Rq? && x in outstanding
    ensures ordseq & Phase(x) == 0
    ensures BitsOf(ordseq | Phase(x), begun, finished + {x}, outstanding - {x})
  {
    OrBits(ordseq, Phase(x));
  }

  lemma ReleasedProxy(s: QState, x: Id)
    requires Core(s) && x in s.driver && !x.Rq?
    ensures var t := Release(s, x);
            Conserved(t) && InProgress(t, t.ordseq | Phase(x))
    ensures s.ordseq & Phase(x) == 0
  {
    ReleasedPlaces(s, x);
    assert x in Items(s);
    assert Outstanding(Release(s, x)) == Outstanding(s) - {x};
    FinishedBits(s.ordseq, s.h.begun, s.h.finished, Outstanding(s), x);
  }

  lemma DrainBits(ordseq: bv8, begun: bv8, finished: set<Id>, outstanding: set<Id>)
    requires BitsOf(ordseq, begun, finished, outstanding)
    ensures BitsOf(ordseq | SEQ_DRAIN, begun, finished, outstanding)
  {
    OrBits(ordseq, SEQ_DRAIN);
  }

  lemma FinishRqCore(s: QState, x: Id, error: int)
    requires Core(s) && x in s.driver && x.Rq?
    ensures Core(Finish(s, x, error))
  {
    var t := Release(s, x);
    ReleasedPlaces(s, x);
    ReleasedRq(s, x);
    if Drained(t) {
      DrainBits(t.ordseq, t.h.begun, t.h.finished, Outstanding(t));
      CompleteBook(t, SEQ_DRAIN, 0);
      CompletePlaces(t, SEQ_DRAIN, 0);
    }
  }

  /** What elv_completed_request makes of a released proxy, whose bit is not yet set. */
  lemma ProxyCompleted(s: QState, x: Id)
    requires Places(s) && Conserved(s) && !x.Rq? && s.ordseq & Phase(x) == 0
    requires InProgress(s, s.ordseq | Phase(x)) && Waiting(s)
    ensures var t := CheckDrained(s);
            && Places(t) && Conserved(t) && InProgress(t, t.ordseq | Phase(x)) && Waiting(t)
            && t.ordseq & Phase(x) == 0 && Items(t) == Items(s)
            && t == s.(ordseq := t.ordseq)
  {
    if Drained(s) {
      OrBits(s.ordseq, SEQ_DRAIN);
      OrBits(s.ordseq, Phase(x));
      CurCases(s.ordseq | SEQ_DRAIN);
      assert CurSeq(s.ordseq | SEQ_DRAIN) != SEQ_DONE;
      var t := CheckDrained(s);
      assert t == s.(ordseq := s.ordseq | SEQ_DRAIN);
      assert Outstanding(t) == Outstanding(s);
      DrainBits(s.ordseq | Phase(x), s.h.begun, s.h.finished, Outstanding(s));
      assert (s.ordseq | Phase(x)) | SEQ_DRAIN == (s.ordseq | SEQ_DRAIN) | Phase(x);
    }
  }

  lemma FinishProxyCore(s: QState, x: Id, error: int)
    requires Core(s) && x in s.driver && !x.Rq?
    ensures Core(Finish(s, x, error))
  {
    var t := Release(s, x);
    ReleasedPlaces(s, x);
    ReleasedProxy(s, x);
    ProxyCompleted(t, x);
    var u := CheckDrained(t);
    CompleteBook(u, Phase(x), error);
    CompletePlaces(u, Phase(x), error);
  }

  // ------------------------------------------------------------- peeking

  /** A hard barrier at the head of the queue has the other colour than the one in progress. */
  lemma HeadColor(s: QState)
    requires Core(s) && s.ordseq != 0 && s.queue != [] && IsHard(s.rq.rqs, s.queue[0])
    ensures ReqSeq(s, s.queue[0]) == SEQ_DONE > CurSeq(s.ordseq)
  {
    var h := Hards(s.rq.rqs, s.queue);
    assert h[0] == s.h.ended + 1;
    assert At(s.rq, Rq(s.orig)) == s.rq.rqs[s.orig];
    CurCases(s.ordseq);
  }

  lemma ServedNotHard(s: QState)
    requires Core(s) && s.queue != [] && DoOrdered(s).1 == Serve
    ensures Core(DoOrdered(s).0)
    ensures !IsHard(DoOrdered(s).0.rq.rqs, DoOrdered(s).0.queue[0])
  {
    var x := s.queue[0];
    assert x in Items(s);
    if s.ordseq == 0 && x.Rq? && IsBarrier(s.rq, x) {
      StartOrderedCore(s);
      var t := BeginOrdered(s);
      ProxiesFacts(s.rq.rqs, t.ordered, s.queue[1..]);
      assert StartOrdered(s).queue[0] in Proxies(t.ordered);
    } else if s.ordseq != 0 && IsHard(s.rq.rqs, x) {
      HeadColor(s);
    }
  }

  lemma MarkCore(s: QState, x: Id)
    requires Core(s) && x in s.queue && !IsHard(s.rq.rqs, x)
    ensures Core(MarkStarted(s, x))
  {
    FlagsSame(s, x, At(s.rq, x).(started := true));
    FlagsPlaces(s, x, At(s.rq, x).(started := true));
    FrameBook(s, MarkStarted(s, x));
  }

  lemma PeekCore(s: QState)
    requires Core(s) && s.queue != []
    ensures Core(Peek(s))
  {
    var (t, v) := DoOrdered(s);
    assert s.queue[0] in Items(s);
    if v == Serve {
      ServedNotHard(s);
      MarkCore(t, t.queue[0]);
    } else if AtHead(s) && s.nextOrdered != ORDERED_NONE {
      StartOrderedCore(s);
    } else if AtHead(s) {
      RejectCore(s);
    }
  }

  // ---------------------------------------------------------------- runs

  lemma InitCore(mode: bv8)
    requires KnownMode(mode)
    ensures Core(Init(mode))
  {
  }

  /** Moves of requests that are neither added nor completed. */
  lemma MoveCore(s: QState, e: Event)
    requires Core(s) && Enabled(s, e)
    requires e.Dispatching? || e.Starting? || e.Requeueing?
    ensures Core(Step(s, e)) && SameBook(s, Step(s, e))
  {
    match e {
      case Dispatching(d) =>
        DispatchSame(s, d);
        DispatchPlaces(s, d);
      case Starting(p) =>
        StartSame(s, p);
        StartPlaces(s, p);
      case Requeueing(x) =>
        RequeueSame(s, x);
        RequeuePlaces(s, x);
    }
    FrameBook(s, Step(s, e));
  }

  lemma AddCore(s: QState, a: NewRequest, order: seq<Dispatch>)
    requires Core(s) && Enabled(s, Add(a, order))
    ensures Core(AddRequest(s, a, order))
  {
    var t := if GoesBack(a) then Drain(s, order) else s;
    if GoesBack(a) {
      DrainCore(s, order, {});
    }
    InsertBook(t, a);
    InsertPlaces(t, a);
  }

  lemma OtherCore(s: QState, e: Event)
    requires Core(s) && Enabled(s, e) && (e.BarPart? || e.SetOrdered?)
    ensures Core(Step(s, e))
  {
    assert Items(Step(s, e)) == Items(s);
    assert Outstanding(Step(s, e)) == Outstanding(s);
  }

  /** Every step of a run keeps the invariant. */
  lemma StepCore(s: QState, e: Event)
    requires Core(s) && Enabled(s, e)
    ensures Core(Step(s, e))
  {
    match e {
      case Add(a, order) => AddCore(s, a, order);
      case Peeking => PeekCore(s);
      case Finishing(x, error) =>
        if x.Rq? { FinishRqCore(s, x, error); } else { FinishProxyCore(s, x, error); }
      case BarPart(_) => OtherCore(s, e);
      case SetOrdered(_) => OtherCore(s, e);
      case _ => MoveCore(s, e);
    }
  }
}
